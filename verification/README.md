# CEphysics analysis core in Dafny

CEphysics is a population-synthesis study of common-envelope (CE) evolution of
binary stars. It runs the POSYDON binary-evolution library over a grid of
initial conditions at three metallicities (Solar 0.014, Mid 0.006, Low 0.001)
and several CE efficiencies alpha_CE. It stores one results row per binary,
then derives survival statistics from those tables.

This project models the discrete logic underneath the scripts:

- **The sweep runner** (`scripts/alpha_sweep.py`). It validates result files
  and builds each simulation's command line. It splits the fixed list of
  simulations into those to run and those already complete, then runs the
  former in order. After each run it records "complete" or "failed" in a
  checkpoint, saves the checkpoint and counts successes and failures. It can
  stop at the first failure. Module `AlphaSweep`.
- **The population** (`run_population.py`). It builds the nested grid of
  initial conditions with M1 >= M2 and optionally samples it (module
  `BinaryGrid`). It extracts the CE record of an evolved binary from the
  first history row whose event mentions "CE", and emits one result per grid
  row (module `Extraction`).
- **The results table and the statistics shared by the analysis scripts.**
  Selections and counts on a table are in `Records`. The binomial interval
  the scripts call `wilson_ci` is in `BinomialCi`. The per-dataset statistics
  row is in `DatasetStats`. The per-metallicity summary of
  `final_analysis.py` is in `FinalSummary`. The file-availability check and
  sweep rows of `scripts/analyze_alpha_sweep.py` are in `SweepStats`.
- **The physics tables** (`scripts/physics_analysis.py`). Donor
  classification is in `DonorType`. The survival tables by donor type, by
  mass-ratio bin and by period bin are in `Physics`. The 2D (q, P) survival
  maps are in `SurvivalMap`.
- **The mechanism tables** (`analyze_mechanisms.py`). They bin lambda with
  `pd.cut` semantics, aggregate per metallicity and donor state, and compute
  the overall survival per state. Module `Mechanisms`.
- **The bootstrap estimates** (`scripts/bootstrap_analysis.py`). These are
  rate, mean and survival by lambda bin. Module `Bootstrap`.

Modelling conventions:

- Floats are `real`. A NaN or missing cell is `Option.None`.
- Whatever the scripts take from outside is a parameter of the model:
  - the evolved binary;
  - the files on disk and what reading them yields;
  - the JSON checkpoint;
  - the subprocess outcome and the line typed at the prompt;
  - the random draws (index sequences);
  - `beta.ppf` and `alpha ** (1/n)` (`BinomialCi.Numerics`);
  - `np.percentile` (`Bootstrap.Percentile`).
- The properties assumed of those routines are explicit predicates:
  `SaneNumerics` and `SanePercentile`.
- The scripts name their interval function `wilson_ci`, but in all four
  copies it computes the Clopper-Pearson exact interval in the interior and
  closed forms at the edges. The model follows the code.
- `run_sweep` returns before its run loop in dry-run mode. Inside the loop
  `run_simulation` is therefore always called with `dry_run` false, and the
  model records exactly that.
- Each loop of the scripts is a `method` whose loop invariant ties the
  partial result to a specification function over the prefix processed so
  far. The properties are lemmas about those functions.

## Model

| member | source | states |
|---|---|---|
| Common.ContainsIffOccurs | scripts/physics_analysis.py:68-81 | Python's `pat in s` holds exactly when `pat` occurs contiguously at some position of `s` |
| Common.ContainsPiece | scripts/physics_analysis.py:68-81 | a string that contains `pat` contains every contiguous piece of `pat` (so anything containing "shell" or "he" contains "h") |
| Common.Lower | scripts/physics_analysis.py:66 | lower-casing keeps the length and lower-cases each ASCII capital, leaving every other character alone |
| Common.Unique | analyze_mechanisms.py:122 | `unique()` holds exactly the values of its input, each once |
| Common.UniqueFirstAppearance | analyze_mechanisms.py:122 | `unique()` lists the distinct values in order of their first appearance in the column |
| Common.Min | final_analysis.py:102 | the minimum of a non-empty column is one of its values and is at most every value |
| Common.Max | final_analysis.py:103 | the maximum of a non-empty column is one of its values and is at least every value |
| Common.SumBounds | final_analysis.py:100 | a sum of n values within [lo, hi] lies within [n*lo, n*hi] |
| Common.MeanWithin | final_analysis.py:100 | the mean of values within [lo, hi] lies within [lo, hi] |
| Common.MeanBetweenMinMax | final_analysis.py:99-105 | the mean of a non-empty column lies between its minimum and its maximum |
| Common.SampleVariance | final_analysis.py:101 | pandas' `std()` (squared) is NaN for fewer than two values and otherwise non-negative |
| Common.PopulationVariance | scripts/bootstrap_analysis.py:76 | numpy's `std()` (squared) of a non-empty array is non-negative |
| Common.Percent | final_analysis.py:89-90 | k out of n as a percentage: within [0, 100] when k <= n, 0 exactly when k = 0, 100 exactly when k = n |
| Records.ResultRow | run_population.py:250-256 | a row whose evolution raised reads back with CE_occurred, survived_CE, lambda_CE and q all missing |
| Records.ResultTable | run_population.py:259 | the table has one row per result, in result order |
| Records.Where | scripts/physics_analysis.py:233-234 | a boolean-mask selection keeps exactly the rows satisfying the mask and never grows the table |
| Records.WhereConcat | scripts/physics_analysis.py:233-234 | a boolean-mask selection keeps table order: selecting over stacked tables is stacking the selections |
| Records.WhereMultiplicity | scripts/physics_analysis.py:233-234 | a selection holds each row satisfying the mask exactly as many times as the table does, and no other row |
| Records.CeEventsConcat | scripts/physics_analysis.py:152 | the CE selection `df[df['CE_occurred'] == True]` of stacked tables is the stack of their CE selections |
| Records.CountCe | final_analysis.py:87 | the CE count is at most the table size |
| Records.CountSurvived | final_analysis.py:88 | the survivor count (missing cells skipped) is at most the table size |
| Records.Lambdas | final_analysis.py:99-103 | `dropna()` of the lambda column holds exactly the present lambdas |
| Records.LambdasMultiplicity | final_analysis.py:99-103 | `dropna()` keeps each lambda value exactly as many times as the lambda_CE column holds it |
| Records.LambdasConcat | final_analysis.py:99-103 | `dropna()` keeps column order |
| Records.CountCeIsCeEvents | final_analysis.py:87 | `(CE_occurred == True).sum()` equals the number of rows `df[CE_occurred == True]` selects |
| Records.SurvivorsAtMostCe | final_analysis.py:88-90 | in a table where every survivor had a CE, survivors never outnumber CE events |
| Records.SurvivorsAreCeEvents | final_analysis.py:88 | in such a table, summing survived_CE over the CE events gives the same count as over the whole table |
| Records.PopulationTableConsistent | run_population.py:186-190 | every table written by `run_population` has survived_CE only on rows with CE_occurred |
| BinomialCi.WilsonCiNoTrials | scripts/physics_analysis.py:43-44 | n = 0 gives (0, 0) whatever k is, because this test comes before the tests on k |
| BinomialCi.WilsonCiNoSuccesses | final_analysis.py:44-46 | k = 0 < n gives lower bound 0 and upper bound (1 - alpha^(1/n)) * 100 |
| BinomialCi.WilsonCiAllSuccesses | final_analysis.py:47-49 | k = n > 0 gives lower bound alpha^(1/n) * 100 and upper bound 100 |
| BinomialCi.WilsonCiInterior | analyze_mechanisms.py:38-40 | for 0 < k < n the bounds are the Clopper-Pearson beta quantiles in percent; the `if k > 0` and `if k < n` fallbacks are dead |
| BinomialCi.WilsonCiOrdered | scripts/analyze_alpha_sweep.py:43-56 | with sane quantile routines, alpha in [0, 1] and k <= n: 0 <= lower <= upper <= 100 |
| DonorType.Classify | scripts/physics_analysis.py:63-64 | the label is Unknown exactly for a missing state |
| DonorType.ShellIsAlwaysShellH | scripts/physics_analysis.py:68-74 | every state containing "shell" in any case is classified Shell H Burning |
| DonorType.DeadLabels | scripts/physics_analysis.py:68-81 | Shell He Burning, Shell Burning (Other) and Core He Burning are never returned |
| DonorType.CoreSplitsOnH | scripts/physics_analysis.py:75-81 | a core state without "shell" is Core H Burning exactly when it contains "h", and Core Burning (Other) otherwise |
| DonorType.OtherIffNeither | scripts/physics_analysis.py:82-83 | the label is Other exactly for a present state mentioning neither "shell" nor "core" |
| Extraction.FirstCe | run_population.py:173-179 | finds no row exactly when no history event contains "CE"; otherwise finds a CE row with no CE row before it |
| Extraction.ExtractCeData | run_population.py:134-196 | the record copies the initial conditions and the final quantities. CE_occurred holds exactly when the event column exists and some event contains "CE". Otherwise lambda and donor state keep their NaN/None defaults. With a CE, each is read from the first CE row only if its column exists. survived_CE holds exactly when a CE occurred and the final state is known and not merged, initial_RLOF or disrupted |
| Extraction.CeRowIsFirstCeEvent | run_population.py:172-179 | a CE row is selected iff the history has an event column with some CE event; the selected row is the first such |
| Extraction.SurvivedImpliesCe | run_population.py:190 | an extracted record never has survived_CE without CE_occurred |
| Extraction.RunPopulation | run_population.py:232-256 | one result per grid row, in grid order: the extracted record of the evolved binary, or the four initial fields plus the error text when evolution raised |
| Extraction.OutcomeIgnoresMetallicity | run_population.py:107-130 | two grid rows with equal masses and period make the same evolution call, since evolution is never given Z; with evolution a function of its arguments they get the same CE outcome whatever their metallicities |
| BinaryGrid.MassRatio | run_population.py:66 | q = M2/M1 is defined iff M1 != 0, satisfies q*M1 = M2, and lies in (0, 1] when 0 < M2 <= M1 |
| BinaryGrid.PeriodRowsFromInputs | run_population.py:60-67 | every row of the period loop draws its values from the input grids, has M1 >= M2 and q = M2/M1 |
| BinaryGrid.SecondaryRowsFromInputs | run_population.py:58-67 | the same for the secondary-mass loop, which keeps only M2 <= M1 |
| BinaryGrid.PrimaryRowsFromInputs | run_population.py:57-67 | the same for the primary-mass loop |
| BinaryGrid.MetallicityRowsFromInputs | run_population.py:56-67 | the same for the metallicity loop |
| BinaryGrid.GridRowsWellFormed | run_population.py:54-67 | every grid row has M1 >= M2, q = M2/M1 and values from the input grids; with positive masses 0 < q <= 1 |
| BinaryGrid.PeriodRowsSize | run_population.py:60-67 | the period loop appends one row per period |
| BinaryGrid.SecondaryRowsSize | run_population.py:58-67 | the secondary loop appends |P| rows per secondary no heavier than M1 |
| BinaryGrid.PrimaryRowsSize | run_population.py:57-67 | the primary loop appends |{(M1, M2) : M1 >= M2}| * |P| rows |
| BinaryGrid.MetallicityRowsSize | run_population.py:56-67 | each metallicity contributes the same number of rows |
| BinaryGrid.GridSize | run_population.py:54-67 | the unsampled grid has |Z| * |{(M1, M2) : M1 >= M2}| * |P| rows |
| BinaryGrid.SampleGrid | run_population.py:72-73 | without a sample size, or with 0 or one at least the grid size, the grid is returned unchanged. A negative size is refused. Otherwise exactly n_samples rows drawn without replacement: each grid row appears at most as often as in the grid |
| BinaryGrid.PickSubMultiset | run_population.py:72-73 | rows picked at distinct positions form a sub-multiset of the grid (sampling without replacement) |
| BinaryGrid.AppendPeriods | run_population.py:60-67 | the innermost loop yields `PeriodRows`: one row per period, in order |
| BinaryGrid.AppendSecondaries | run_population.py:58-67 | the secondary loop yields the rows of every M2 <= M1 |
| BinaryGrid.AppendPrimaries | run_population.py:57-67 | the primary loop yields its block of rows |
| BinaryGrid.AppendMetallicities | run_population.py:56-67 | the four nested loops yield the grid ordered Z, M1, M2, P outermost first |
| BinaryGrid.CreateBinaryGrid | run_population.py:28-75 | the result is the ordered grid passed through the optional sampling |
| DatasetStats.AllLambdasPresent | final_analysis.py:99-101 | rows that all have a lambda contribute one value each |
| DatasetStats.CeWithLambdaHasLambdas | final_analysis.py:99-101 | the CE-with-lambda rows give as many lambdas as there are rows |
| DatasetStats.StatsOf | scripts/analyze_alpha_sweep.py:133-153 | total and CE counts (CE <= total); the survivor count. The CE rate is NaN exactly for an empty table and otherwise a percentage. Without CE events the survival rate is 0 and its CI (0, 0). The lambda mean is NaN exactly without CE rows with lambda; the spread is defined exactly with two or more |
| DatasetStats.StatsSurvival | final_analysis.py:88-90 | in a consistent table survivors <= CE events, and the survival rate is a percentage that is 0 exactly when nobody survived |
| DatasetStats.StatsIntervals | final_analysis.py:93-97 | with sane numerics both intervals are ordered percentages (the survival one in a consistent table) |
| FinalSummary.SummaryOf | final_analysis.py:86-123 | the row carries the dataset statistics and Systems_with_Lambda = len(ce_df); lambda min and max are NaN exactly when the mean is |
| FinalSummary.SummaryLambdaRange | final_analysis.py:99-105 | with lambdas present, Lambda_Min <= Lambda_Mean <= Lambda_Max and every CE lambda lies within [min, max] |
| FinalSummary.Summarize | final_analysis.py:83-123 | exactly three rows: Solar (0.014), Mid (0.006), Low (0.001), in that order, each the summary of its table |
| SweepStats.CheckFiles | scripts/analyze_alpha_sweep.py:79-100 | the loop yields `LoadedFrom` and `MissingFrom`: the datasets that load, and the required files that do not |
| SweepStats.MissingExactly | scripts/analyze_alpha_sweep.py:79-100 | a file is reported missing iff it is a required entry that is absent or fails to load |
| SweepStats.LoadedExactly | scripts/analyze_alpha_sweep.py:79-90 | every loaded dataset is a loading file's table with that entry's Z, label and alpha, and every file that loads is loaded |
| SweepStats.NoneMissingIff | scripts/analyze_alpha_sweep.py:102-104 | nothing is missing iff every required entry loads |
| SweepStats.RequiredEntries | scripts/analyze_alpha_sweep.py:59-71 | exactly entries 0, 1 and 4 (the alpha_CE = 0.5 baselines) are required |
| SweepStats.ProceedsIffBaselinesLoad | scripts/analyze_alpha_sweep.py:102-104 | the script goes on iff the three baseline files load |
| SweepStats.SweepRows | scripts/analyze_alpha_sweep.py:127-170 | one row per loaded dataset, in order, with its label, Z, alpha and statistics |
| SweepStats.AnalyzeSweep | scripts/analyze_alpha_sweep.py:77-170 | exits (None) iff a required file is missing; otherwise one statistics row per loaded dataset |
| SweepStats.BaselinesLoaded | scripts/analyze_alpha_sweep.py:106 | once the script goes on, at least three datasets are loaded, so its later "fewer than three" branch cannot fire |
| Physics.SurvivalRate | scripts/physics_analysis.py:246-247 | the rate of a non-empty group is a percentage, 0 exactly when nobody survived and 100 exactly when all did |
| Physics.AtMostOneBin | scripts/physics_analysis.py:233 | with sorted edges a value lies in at most one half-open bin [min, max) |
| Physics.TopEdgeInNoBin | scripts/physics_analysis.py:225-233 | a value equal to the top edge (q = 1.0, an equal-mass binary) lies in no bin |
| Physics.BlocksInclude | scripts/physics_analysis.py:229-259 | the rows produced for any one bin are among the rows of the whole table |
| Physics.BlocksAll | scripts/physics_analysis.py:229-259 | a property of every bin's rows holds for every row of the table |
| Physics.SplitByMetallicity | scripts/physics_analysis.py:239-259 | the metallicity loop of one bin yields one row per non-empty (bin, Z) group, Z in 0.014, 0.006, 0.001 order |
| Physics.AnalyzeBinned | scripts/physics_analysis.py:229-259 | the mass-ratio loop, and the identical period loop at lines 292-323, yield `SurvivalTable`, whose rows are exactly the sound rows of the non-empty (bin, Z) groups (SurvivalTableSound, SurvivalTableComplete) |
| Physics.GroupRowSound | scripts/physics_analysis.py:244-259 | the row of a non-empty group has the group's edges, Z and size. N_Survived <= N_Systems, the rate is their percentage and the CI is ordered within [0, 100] under sane numerics |
| Physics.ZRowsSound | scripts/physics_analysis.py:239-259 | every row of one bin is such a sound row |
| Physics.BinSound | scripts/physics_analysis.py:229-259 | every row produced for bin k is sound |
| Physics.BinsSound | scripts/physics_analysis.py:229-259 | every bin's rows are sound |
| Physics.SurvivalTableSound | scripts/physics_analysis.py:229-259 | every row of a binned survival table describes a non-empty (bin, Z) group and is sound |
| Physics.ZRowsComplete | scripts/physics_analysis.py:239-242 | every non-empty Z group of a bin gets its row |
| Physics.RowsInBinComplete | scripts/physics_analysis.py:233-242 | every non-empty (bin, Z) group's row is among the bin's rows |
| Physics.TableIncludesBin | scripts/physics_analysis.py:229-236 | each bin's rows are in the table |
| Physics.SurvivalTableComplete | scripts/physics_analysis.py:229-259 | every non-empty (bin, Z) group gets exactly the row that counts its systems and survivors |
| Physics.AllCe | scripts/physics_analysis.py:149-155 | the concatenation holds only CE events |
| Physics.AllCeIsCeEventsOfConcat | scripts/physics_analysis.py:149-155 | `pd.concat` of the per-dataset CE selections equals the CE selection of the concatenated datasets: every CE event of every dataset, as often as it occurs, in dataset order |
| Physics.AllCeComplete | scripts/physics_analysis.py:149-155 | every CE event of every dataset is in the concatenation |
| Physics.LambdaMean | scripts/physics_analysis.py:183-184 | the lambda mean is NaN exactly when the group has no lambda |
| Physics.LambdaVariance | scripts/physics_analysis.py:185 | the lambda spread is defined exactly with at least two lambdas |
| Physics.CombineCeEvents | scripts/physics_analysis.py:149-155 | the loop concatenates every dataset's CE events, in dataset order |
| Physics.DonorTypeByMetallicity | scripts/physics_analysis.py:172-198 | the metallicity loop of one donor type yields one row per non-empty Z group |
| Physics.AnalyzeShellVsCore | scripts/physics_analysis.py:143-212 | the function returns `AllCe` of the datasets and `ShellVsCoreTable` of it, whose rows are exactly the sound rows of the (donor type, Z) groups with CE events |
| Physics.DonorGroupRowSound | scripts/physics_analysis.py:172-198 | a non-empty (type, Z) group's row counts it: N_Survived <= N_CE_Events, the rate is their percentage and the CI is ordered under sane numerics. Lambda_Mean is NaN exactly without lambdas and otherwise between their min and max. The spread is non-negative |
| Physics.DonorZRowsSound | scripts/physics_analysis.py:172-198 | every row of one donor type is sound |
| Physics.DonorRowsSound | scripts/physics_analysis.py:169-198 | every row of the listed donor types is sound |
| Physics.ShellVsCoreSound | scripts/physics_analysis.py:169-198 | every row of the shell-vs-core table is sound |
| Physics.DonorZRowsComplete | scripts/physics_analysis.py:172-177 | every non-empty Z group of a donor type gets its row |
| Physics.DonorRowsComplete | scripts/physics_analysis.py:169-177 | the same for every listed donor type |
| Physics.ShellVsCoreComplete | scripts/physics_analysis.py:169-198 | every (donor type, Z) pair with CE events gets exactly the row of its group |
| SurvivalMap.CellRate | scripts/physics_analysis.py:373-377 | a cell's survival entry is NaN exactly for an empty cell and otherwise a percentage |
| SurvivalMap.SurvivalMaps | scripts/physics_analysis.py:357-377 | both maps have (|q edges| - 1) x (|P edges| - 1) cells; count_map[i, j] is the number of events of that Z in cell (i, j) and survival_map[i, j] its rate |
| SurvivalMap.NoHitsBelow | scripts/physics_analysis.py:366-369 | a value at or above edge n lies in none of the first n bins |
| SurvivalMap.AtMostOneHit | scripts/physics_analysis.py:366-369 | with sorted edges a value lies in at most one half-open bin |
| SurvivalMap.RowHitsAtMostOne | scripts/physics_analysis.py:366-369 | an event hits cells of row i only if its q is in bin i, and then at most as often as its P hits period bins |
| SurvivalMap.GridHitsAtMostBinHits | scripts/physics_analysis.py:366-369 | an event hits at most as many cells as its q hits mass-ratio bins |
| SurvivalMap.EventInAtMostOneCell | scripts/physics_analysis.py:366-369 | with sorted edges an event lies in at most one cell |
| SurvivalMap.RowCountSnoc | scripts/physics_analysis.py:370-371 | one more event raises a row's total count by the number of its cells it hits |
| SurvivalMap.MapCountSnoc | scripts/physics_analysis.py:370-371 | one more event raises the map's total count by the number of cells it hits |
| SurvivalMap.CountsAtMostEvents | scripts/physics_analysis.py:361-372 | the counts of a map sum to at most the number of CE events at that metallicity |
| SurvivalMap.EmptyMapCount | scripts/physics_analysis.py:362-363 | with no events every count of the map is 0 |
| SurvivalMap.EmptyRowCount | scripts/physics_analysis.py:362-363 | with no events every count of a map row is 0 |
| Mechanisms.Assign | analyze_mechanisms.py:56-58 | `assign(Z_val=z)` keeps every row and sets only its metallicity |
| Mechanisms.MechanismEvents | analyze_mechanisms.py:56-60 | every selected event has CE_occurred True, a lambda and one of the three metallicities |
| Mechanisms.AssignCeWithLambda | analyze_mechanisms.py:56-58 | each dataset's selection holds only CE events with a lambda, tagged with its Z |
| Mechanisms.MechanismEventsComplete | analyze_mechanisms.py:56-60 | every CE event with a lambda of each dataset is in `all_ce` tagged with that dataset's Z, and `all_ce` has exactly as many rows as the three selections together |
| Mechanisms.TaggedComplete | analyze_mechanisms.py:56-58 | every CE event with a lambda of one dataset is in its tagged selection |
| Mechanisms.CutFrom | analyze_mechanisms.py:79 | the search returns a bin holding the value at or after i, or None when no bin from i on holds it |
| Mechanisms.Cut | analyze_mechanisms.py:79 | `pd.cut` gives a bin holding the value, or NaN exactly when no bin holds it |
| Mechanisms.CutCovers | analyze_mechanisms.py:79 | with increasing edges a value gets a bin iff it lies within [first edge, last edge], and it lies in at most one |
| Mechanisms.CutFindsBin | analyze_mechanisms.py:79 | a value within range and above bin i's lower edge is found from bin i on |
| Mechanisms.LambdaBins | analyze_mechanisms.py:75-79 | lambda gets a bin iff 0 <= lambda <= 1; the first bin is [0, 0.03] (include_lowest) and the last (0.25, 1] |
| Mechanisms.BinnedSurvival | analyze_mechanisms.py:82-104 | the loop over the labels yields `LambdaRows`: one sound row per non-empty lambda bin, in label order |
| Mechanisms.LambdaRowSound | analyze_mechanisms.py:84-99 | a non-empty bin's row counts it: N_Survived <= N_Systems, the rate is their percentage and the CI is ordered under sane numerics. Mean_Lambda lies within the bin's edges |
| Mechanisms.LambdaRowsSound | analyze_mechanisms.py:82-104 | every row of the lambda table is sound |
| Mechanisms.LambdaRowsSnoc | analyze_mechanisms.py:83-85 | scanning one more label appends that bin's row exactly when the bin holds an event, and otherwise nothing |
| Mechanisms.LambdaRowsComplete | analyze_mechanisms.py:83-99 | every lambda bin holding a CE event gets exactly its row: its label, counts, rate, CI and mean over that bin's events |
| Mechanisms.LambdaRowsOrdered | analyze_mechanisms.py:83-99 | the k-th row is the row of the k-th non-empty bin, and those bins come in increasing label order; empty bins get no row |
| Common.GatherComplete | analyze_mechanisms.py:83-85 | a loop that appends a value for some indices below n appends every value it yields |
| Common.GatherIndexed | analyze_mechanisms.py:83-85 | such a loop appends the values in index order, one per yielding index |
| Mechanisms.DonorStates | analyze_mechanisms.py:122 | `dropna()` of donor_state holds exactly the present states |
| Mechanisms.DonorStatesMultiplicity | analyze_mechanisms.py:122 | `dropna()` keeps each donor state exactly as many times as the donor_state column holds it |
| Mechanisms.DonorStatesConcat | analyze_mechanisms.py:122 | `dropna()` keeps column order |
| Mechanisms.StateRowsLoop | analyze_mechanisms.py:122-140 | the loop over one metallicity's states yields one row per state, in order |
| Mechanisms.StatesAtMetallicity | analyze_mechanisms.py:119-140 | one metallicity yields one row per distinct present donor state, in order of first appearance |
| Mechanisms.StateAnalysis | analyze_mechanisms.py:118-140 | the metallicity loop yields `StateTable`: the state rows of Solar, then Mid, then Low |
| Mechanisms.StateTableSnoc | analyze_mechanisms.py:119-122 | one more metallicity appends exactly its own state rows |
| Mechanisms.StateRowsAtNonEmpty | analyze_mechanisms.py:122-126 | every state row has n_total >= 1, so the `if n_total > 0` guard never fires, and N_Survived <= N_CE_Events |
| Mechanisms.StateTableNonEmpty | analyze_mechanisms.py:118-140 | the same for every row of the state table |
| Mechanisms.SumsOfConcat | analyze_mechanisms.py:330-334 | the per-state sums of concatenated tables add up |
| Mechanisms.SumsAtMetallicity | analyze_mechanisms.py:330-334 | within one metallicity a state contributes its own group's events and survivors once, or nothing |
| Mechanisms.AbsentStateHasNoEvents | analyze_mechanisms.py:122-123 | a state missing from a metallicity's states has no events there |
| Mechanisms.StateTotals | analyze_mechanisms.py:330-334 | a state's summed N_CE_Events and N_Survived are its events and survivors at each metallicity, added up |
| Mechanisms.OverallSurvivalIsPooled | analyze_mechanisms.py:330-335 | a state's Overall_Survival_% is its survivors over its events, each pooled over the three metallicities, times 100 |
| Bootstrap.Resample | scripts/bootstrap_analysis.py:69 | a resample has the draw's size and takes every element from the data |
| Bootstrap.CountTrue | scripts/bootstrap_analysis.py:70 | the number of true outcomes is 0 iff none is true and the full size iff none is false |
| Bootstrap.Summarize | scripts/bootstrap_analysis.py:75-85 | an empty distribution makes the percentile raise; otherwise the estimate carries the distribution and a non-negative spread |
| Bootstrap.SummaryWithin | scripts/bootstrap_analysis.py:75-78 | a distribution within [lo, hi] has its mean and both CI bounds there, the bounds in order |
| Bootstrap.SampleRate | scripts/bootstrap_analysis.py:70 | each resampled rate lies in [0, 100] |
| Bootstrap.ResampledRates | scripts/bootstrap_analysis.py:67-72 | one rate per iteration, each in [0, 100] |
| Bootstrap.RateOutcome | scripts/bootstrap_analysis.py:43-86 | empty data gives all-zero statistics and no distribution. Zero iterations make the percentile raise. Otherwise the distribution has n_iterations rates, each in [0, 100] |
| Bootstrap.ResampleRates | scripts/bootstrap_analysis.py:67-72 | the loop yields the resampled rates in draw order |
| Bootstrap.BootstrapRate | scripts/bootstrap_analysis.py:43-86 | `bootstrap_rate` returns `RateOutcome`: zero statistics for empty data, a raise for no iterations, otherwise rates in [0, 100] and their summary |
| Bootstrap.BootstrapRateBounds | scripts/bootstrap_analysis.py:75-78 | with data and iterations, the mean and both CI bounds are percentages, CI_low <= CI_high for alpha <= 1 |
| Bootstrap.NoSuccessesGiveZero | scripts/bootstrap_analysis.py:67-78 | data without a success gives mean and CI bounds 0 |
| Bootstrap.AllSuccessesGiveHundred | scripts/bootstrap_analysis.py:67-78 | data of successes only gives mean and CI bounds 100 |
| Bootstrap.Present | scripts/bootstrap_analysis.py:106 | removing NaNs keeps exactly the present values |
| Bootstrap.PresentMultiplicity | scripts/bootstrap_analysis.py:106 | removing NaNs keeps each value exactly as many times as the data holds it |
| Bootstrap.PresentConcat | scripts/bootstrap_analysis.py:106 | removing NaNs keeps the data's order |
| Bootstrap.SampleMean | scripts/bootstrap_analysis.py:116 | each resampled mean lies between the smallest and the largest value |
| Bootstrap.ResampledMeans | scripts/bootstrap_analysis.py:113-118 | one mean per iteration, each between the data's min and max |
| Bootstrap.MeanOutcome | scripts/bootstrap_analysis.py:88-132 | with no value present every statistic is NaN. Zero iterations make the percentile raise. Otherwise n_iterations means, each within the data's range |
| Bootstrap.ResampleMeans | scripts/bootstrap_analysis.py:113-118 | the loop yields the resampled means in draw order |
| Bootstrap.BootstrapMean | scripts/bootstrap_analysis.py:88-132 | `bootstrap_mean` returns `MeanOutcome`: NaN statistics without values, a raise for no iterations, otherwise means within the data's range and their summary |
| Bootstrap.BootstrapMeanBounds | scripts/bootstrap_analysis.py:121-124 | with values and iterations the mean and both CI bounds lie within the data's range, the bounds in order |
| Bootstrap.FillFalse | scripts/bootstrap_analysis.py:226 | `fillna(False)` keeps the length and maps a cell to True exactly when it is True |
| Bootstrap.CeFlags | scripts/bootstrap_analysis.py:226 | the CE flags are True exactly on the CE rows |
| Bootstrap.SurvivedFlags | scripts/bootstrap_analysis.py:266 | the survived flags are True exactly on the surviving rows |
| Bootstrap.CeFlagsCountCe | scripts/bootstrap_analysis.py:226 | the flags bootstrapped for the CE rate count exactly the CE events |
| Bootstrap.SurvivedFlagsCountSurvived | scripts/bootstrap_analysis.py:266 | the flags bootstrapped for survival count exactly the survivors |
| Bootstrap.BinSamples | scripts/bootstrap_analysis.py:157-176 | at most one sample per bin, each of a non-empty bin, with n_iterations rates in [0, 100] |
| Bootstrap.EstimatesOf | scripts/bootstrap_analysis.py:178-187 | one row per sample, in order |
| Bootstrap.SamplesPrefix | scripts/bootstrap_analysis.py:157 | scanning more bins only appends samples |
| Bootstrap.BootstrapSurvivalByLambda | scripts/bootstrap_analysis.py:134-189 | the bin loop yields `BinEstimates`: one row per non-empty bin in edge order, or a raise when a non-empty bin meets zero iterations |
| Bootstrap.SamplesNonEmpty | scripts/bootstrap_analysis.py:163-167 | there is a sample iff some bin is non-empty |
| Bootstrap.BinEstimatesRaise | scripts/bootstrap_analysis.py:185-186 | the call raises iff there are no iterations and some bin is non-empty |
| Bootstrap.SamplesSound | scripts/bootstrap_analysis.py:157-176 | each sample comes from a non-empty half-open bin [edges[i], edges[i+1]) and counts its rows |
| Bootstrap.SamplesComplete | scripts/bootstrap_analysis.py:163-167 | every non-empty bin has its sample |
| Bootstrap.SamplesOrdered | scripts/bootstrap_analysis.py:157 | with increasing edges the samples come in edge order |
| Bootstrap.BinEstimatesSound | scripts/bootstrap_analysis.py:178-187 | each row is a non-empty bin with N_Systems its size and n_iterations rates in [0, 100]. Its mean is in [0, 100] and its CI sits at the fixed 2.5 and 97.5 percentiles, whatever alpha |
| Bootstrap.BinEstimatesCi | scripts/bootstrap_analysis.py:185-186 | with a sane percentile routine each row's CI is an ordered pair of percentages |
| Bootstrap.BinEstimatesComplete | scripts/bootstrap_analysis.py:163-187 | every non-empty bin gets a row with its edges and size |
| Bootstrap.BinEstimatesOrdered | scripts/bootstrap_analysis.py:157-187 | with increasing edges the rows come in edge order |
| AlphaSweep.MissingColumns | scripts/alpha_sweep.py:132-133 | the missing columns are exactly the required ones the table lacks |
| AlphaSweep.ValidateHdf5 | scripts/alpha_sweep.py:120-142 | a file validates iff it exists, reads, has at least one row and has all of M1_initial, M2_initial, P_initial and Z |
| AlphaSweep.SimulationsHaveDistinctNames | scripts/alpha_sweep.py:33-82 | the four simulations have distinct names, so checkpoint entries do not collide |
| AlphaSweep.ReadPairsOfRendering | scripts/alpha_sweep.py:179-181 | the `--key value` flags of a command line read back as the parameters, in order |
| AlphaSweep.BuildCommand | scripts/alpha_sweep.py:169-183 | the command is `python run_population.py --metallicity m --alpha_CE a --n_systems n --output o` followed by one `--key value` pair per parameter in insertion order. Its length is 10 + 2 * |params| and its tail reads back as the parameters |
| AlphaSweep.RunSimulation | scripts/alpha_sweep.py:185-232 | success iff dry run, or exit code 0 with an output that validates. A non-zero exit code reports that code and a timeout reports Timeout |
| AlphaSweep.InitialCheckpoint | scripts/alpha_sweep.py:251 | without --resume the checkpoint starts empty; with it, it is the stored one |
| AlphaSweep.EntryFor | scripts/alpha_sweep.py:320-324 | an entry's status is "complete" iff the run succeeded, and "failed" otherwise |
| AlphaSweep.RecordedEntries | scripts/alpha_sweep.py:319-325 | after running distinct simulations each one's entry is "complete" iff it succeeded, and every other name keeps its old entry or absence |
| AlphaSweep.SnapshotsAfterEach | scripts/alpha_sweep.py:325 | one checkpoint is saved per simulation, the k-th holding the outcomes of the first k + 1 |
| AlphaSweep.Successes | scripts/alpha_sweep.py:327-328 | successes never exceed the simulations run |
| AlphaSweep.SelectPartitions | scripts/alpha_sweep.py:258-281 | to_run and skipped together are exactly SIMULATIONS, as multisets |
| AlphaSweep.SelectKinds | scripts/alpha_sweep.py:264-279 | to_run holds only incomplete simulations and skipped only complete ones |
| AlphaSweep.SelectKeepsDistinctNames | scripts/alpha_sweep.py:258-281 | the scan keeps list order, so distinctly named simulations give a plan with distinct names |
| AlphaSweep.PlanPrefixEntries | scripts/alpha_sweep.py:315-326 | after running a prefix of a plan of distinctly named simulations, each run one's status is "complete" iff it succeeded and every other entry is as before |
| AlphaSweep.SelectSnoc | scripts/alpha_sweep.py:260-281 | scanning one more simulation appends it to exactly one of the two lists |
| AlphaSweep.IsComplete | scripts/alpha_sweep.py:261-279 | a simulation is skipped iff its output exists and validates, or its checkpoint status is "complete" |
| AlphaSweep.Plan | scripts/alpha_sweep.py:258-281 | the scan splits SIMULATIONS into to_run and skipped, both in list order, sizes adding up to the list's |
| AlphaSweep.RecordOne | scripts/alpha_sweep.py:319-328 | recording one simulation updates only its entry, saves one checkpoint and counts one success iff it succeeded |
| AlphaSweep.RunAndRecord | scripts/alpha_sweep.py:317-336 | one pass runs the simulation, records its entry, saves the checkpoint and bumps exactly one counter |
| AlphaSweep.ExecutePlan | scripts/alpha_sweep.py:313-336 | the loop runs a prefix of to_run in order (at least one when there is one), recording and saving each. successes + failures = the number run. Under --stop-on-error at most one failure, every earlier run succeeded, and the loop stops early only right after a failure |
| AlphaSweep.RunSweep | scripts/alpha_sweep.py:238-353 | the plan comes from the initial checkpoint. With nothing to run, a dry run or a refusal, nothing runs and nothing is saved, and the first two return True. Otherwise the loop contract of ExecutePlan holds. It returns False iff the user declined or some simulation failed. Over SIMULATIONS, the checkpoint says "complete" for each simulation run exactly when it succeeded and keeps every other entry as it was |

## Left out

- POSYDON is not part of this model. That covers `setup_simulation_properties`, `evolve_binary`, `load_steps` and `to_df`. The evolved binary and its history are inputs. `evolve(M1, M2, P)` receives neither the metallicity nor alpha_CE, as in run_population.py.
- Extraction.OutcomeIgnoresMetallicity: evolution is modelled as a deterministic function of (M1, M2, P). Randomness inside POSYDON, such as supernova kicks, is not modelled, so the lemma shows that the call is identical, not that two real runs agree.
- AlphaSweep.EntryFor: the checkpoint entry leaves out the `timestamp` field (`datetime.now().isoformat()`), since the clock is not modelled.
- I/O: HDF5 and CSV reading and writing, the JSON checkpoint file, log files, `mkdir` and all plotting are out of scope. Files are a map from path to what reading finds, and the checkpoint is a map from name to entry.
- Process control: the subprocess of `run_simulation`, its two-hour timeout, durations and the `input()` prompt are inputs (`RunReport`, `response`). The success message carries no duration. `check_prerequisites` only logs and always returns True, so it is left out. `run_analysis` and `main` of scripts/alpha_sweep.py are not part of this model.
- Floating point: reals are exact. `beta.ppf`, `alpha ** (1/n)` and `np.percentile` are given functions, and their properties are the explicit assumptions `SaneNumerics` and `SanePercentile`. `np.linspace` / `np.logspace` edges are given sequences.
- Randomness: `np.random.choice` and `DataFrame.sample` are given index draws. The particular `random_state=42` draw is not modelled, only that it is a permutation.
- Common.SampleVariance: models the square of pandas' `std()`, not the standard deviation, because the square root is not modelled.
- Common.PopulationVariance: models the square of numpy's `std()`, for the same reason.
- Common.Lower: lower-cases ASCII letters only; Python's Unicode case mapping is not modelled.
- Extraction.ExtractCeData: `str()` of a float state cell (giving "nan") is not modelled. A missing state cell prints "None". Each final quantity is a separate input, so an exception while reading one that skips the later reads is not modelled.
- SurvivalMap.SurvivalMaps: requires at least one edge per axis; the script's edge arrays always have eight.
- Bootstrap.BootstrapSurvivalByLambda: treats a missing survived_CE in a resample as False, where pandas' `mean()` would skip it. Rows written by `run_population` never have a missing survived_CE on a CE event.
- Physics.AnalyzeBinned: the derived columns q_center and P_center (a midpoint and a geometric mean) and the printed value counts are not modelled.
- The printed `value_counts()` of donor types is left out. The shell-vs-core table visits donor types in order of first appearance.
- In the overall state summary of analyze_mechanisms.py, the `Lambda_Mean` column (a mean of means), the sort order of the groupby rows and the text label of each metallicity are left out. Each state's totals and survival are modelled per state.
- The `gaussian_filter` smoothing of the survival maps is computed only for plotting and is left out.
- The bootstrap script's analyses after the CE-rate and survival flags (lambda distributions and comparisons) are not modelled beyond the `fillna(False)` flags.
- The analyses after the sweep rows in scripts/analyze_alpha_sweep.py and after the summary table in final_analysis.py (trends, plots) are left out.
- Whole files: scripts/observational_comparison.py (a catalog, real-exponent formulas and plots), analyze_results.py (groupby plus plots) and the library probes debug_binary_history.py, test_single_binary.py and test_posydon_setup.py are not part of this model.
