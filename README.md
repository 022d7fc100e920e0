# Netlist scanning, DC sweep bookkeeping and plot preparation

This project models three sequential, non-numeric parts of a small circuit simulator and its plotting script, and proves properties of the model in Dafny.

- **Netlist scanner and dispatcher** (`src/parser.c`).
  - `get_num_tokens` counts the fields of a netlist line with a one-flag state machine. It rewrites a leading tab in place.
  - `tokenizer` drops comment and empty lines. It splits the rest into a counted field array.
  - `init_parser` sets the option defaults.
  - `parse_netlist` dispatches every accepted line:
    - `.OPTIONS` sets flags;
    - `.DC` fills the current sweep slot;
    - `.PLOT`/`.PRINT` stores the probed node names and moves to the next slot;
    - any other line is an element line, and V/L elements are counted as group 2.
- **DC sweep bookkeeping** (`src/dc_analysis.c`).
  - `dc_operating_point` reports every non-ground node of the hash table at `sol_x[id - 1]`.
  - `dc_sweep` works as follows:
    1. find the first element named like the swept source;
    2. name one output file per probed node;
    3. zero the solution vector;
    4. at every step, stamp the right-hand side with the swept value, solve, and append one row per node.
- **Plot preparation** (`plot.py`).
  - Bucket the output-directory listings by kind (DC, TRAN, AC).
  - Stop when every bucket is empty, and detect the AC sweep type (LIN/LOG).
  - Build the map of figure folders and number the figures.
  - Take each file's legend label from its name.
  - Read the data lines into columns, and compute the x ticks of a linear AC sweep.

## Modules

- `text.dfy`, module `Text`. Shared string helpers:
  - an option type;
  - substring search (Python's `in`);
  - splitting on one character and joining back;
  - decimal rendering and reading.
- `tokenizer.dfy`, module `Tokenizer`.
  - `GetNumTokens` and `Tokenize` work on the line as an `array<char>`.
  - They are proved against the specification functions `NumTokens`, `Fields` and `Tokenized`.
- `netlist.dfy`, module `Netlist`.
  - The class `Parser` has the parser's option flags, DC slots and counters as fields.
  - Its methods are proved against `LineEffect`, a function giving the effect of one line.
  - `ParseNetlist` is proved against `NetlistAfter`, the same effect over a whole file.
- `dc_analysis.dfy`, module `DcAnalysis`.
  - `Stamp` and `ZeroOut` write arrays in place.
  - `SweepOne`, `SweepAnalysis` and `DcSweep` are proved against the step function `Steps` and the file contents `Column`.
  - `DcSweep` also states how the right-hand side and the solution pass from one analysis to the next (`SweepChain`).
  - `DcOperatingPoint` is proved against `Report`.
- `plot_files.dfy`, module `PlotFiles`: `get_analyses`, `check_analyses`, `get_sweep`, `get_paths_create_folders`, the figure numbering, and the AC `last` flag.
- `plot_series.dfy`, module `PlotSeries`: labels, data-line reading, and `set_xticks`.

The three source files are modelled each as written, including their quirks. In particular, they are not reconciled with each other:
- `dc_sweep` names its files `dc_analysis_<source>_<node>.txt`;
- `plot.py` collects DC files whose names contain `dc_sweep_analysis_`.

`PlotSeries.SweepFileLabel` shows what `plot.py` would label a file named the way `dc_sweep` names it.

## Model

| member | source | states |
|---|---|---|
| Text.ContainsAt | plot.py:235-245 | Python's `prefix in name` holds exactly when the prefix occurs at some offset of the name |
| Text.SplitPiecesFree | plot.py:35-38 | no piece of `name.split("_")` contains `_` |
| Text.JoinSplit | plot.py:35-38 | joining the pieces of `split("_")` with `_` gives the name back |
| Text.SplitJoin | plot.py:35-38 | splitting a `_`-join of `_`-free pieces returns exactly those pieces, so field `i` of such a name is piece `i` |
| Text.DecimalRoundTrip | src/parser.c:52 | the count written with `sprintf("%d")` into `tokens[0]` is read back by `sscanf("%d")` as the same number |
| Tokenizer.LeadingTabToSpace | src/parser.c:11 | the rewritten line has the same length, a tab at position 0 becomes a space, and every other byte is unchanged |
| Tokenizer.GetNumTokens | src/parser.c:8-29 | the loop over the line leaves it with only the leading tab rewritten, and returns the flag machine's count of the original line |
| Tokenizer.BlankLineHasNoTokens | src/parser.c:8-29 | a non-empty line of only spaces and tabs counts 0 tokens |
| Tokenizer.ControlByteIgnored | src/parser.c:17-27 | inserting a byte that is neither blank nor printable (`\r`, `\n`, codes above 127) after position 0 leaves the count unchanged |
| Tokenizer.TokensInBound | src/parser.c:17-27 | the flag machine never counts more than the number of maximal non-blank runs, and counts exactly that many on text of blanks and printable bytes |
| Tokenizer.NumTokensAtMostFields | src/parser.c:8-29 | the count of a non-empty line is at most the number of `strtok` fields |
| Tokenizer.CountIsFieldCount | src/parser.c:8-29 | when every byte after the first is a space, a tab or printable, the count equals the number of `strtok` fields |
| Tokenizer.FieldsAreWords | src/parser.c:54-62 | every `strtok(line, " \t")` field is non-empty and holds no space or tab |
| Tokenizer.FieldsOfSpaced | src/parser.c:54-62 | the fields of words joined by single spaces are those words, in order |
| Tokenizer.FieldsIgnoreLeadingTab | src/parser.c:11 | rewriting a leading tab to a space does not change the `strtok` fields |
| Tokenizer.TrimNewline | src/parser.c:63-66 | a field ending in `\n` loses exactly that byte; any other field is unchanged |
| Tokenizer.TrimLast | src/parser.c:63-66 | only the last field is trimmed; all others are kept as they are |
| Tokenizer.Tokenize | src/parser.c:32-68 | returns NULL (`None`) for skipped lines and zero counts, otherwise the count followed by the collected and trimmed fields; the buffer ends with only its leading tab rewritten |
| Tokenizer.TokenizedRejects | src/parser.c:39-46 | a line starting with `*` or `\n`, the line `"\r\n"`, and a non-empty line of blanks give no tokens |
| Tokenizer.TokenizedShape | src/parser.c:52-66 | an accepted line gives `n + 1` entries: the decimal count `n`, then the first `n` fields in order, the last without a trailing newline |
| Tokenizer.TokenizedCleanLine | src/parser.c:43-66 | on a line of blanks and printable bytes that starts with a field, every field is returned |
| Tokenizer.TokenizedLineWithNewline | src/parser.c:32-68 | a clean line as `getline` delivers it, ending in `\n`, gives the count of its fields and every field in order, with the newline trimmed whether it was glued to the last field or followed a blank |
| Tokenizer.FieldsSnocAfterWord | src/parser.c:54-62 | a non-blank byte appended right after a field extends that field and adds no new one |
| Tokenizer.FieldsSnocAfterBlank | src/parser.c:54-62 | a non-blank byte appended after a blank (or to nothing) becomes a new one-byte last field |
| Netlist.Parser.constructor | src/parser.c:70-89 | SPD, ITER and SPARSE start false, itol starts at DEFAULT_ITOL, and the counters start at 0 with no slot written |
| Netlist.OptionFlags | src/parser.c:131-142 | after `.OPTIONS`, SPD (ITER) is set exactly when it was set before or some argument is exactly `SPD` (`ITER`); SPARSE never changes |
| Netlist.ItolUnset | src/parser.c:139-141 | without an argument that starts with `ITOL`, is longer than 5 bytes and has a number after its 5th byte, itol keeps its value |
| Netlist.ItolLastWins | src/parser.c:139-141 | itol is the text after the 5th byte of the last argument that sets it; arguments whose text does not convert do not count |
| Netlist.ItolWithoutNumber | src/parser.c:139-141 | `ITOL=abc` leaves itol as it was, because `sscanf` converts nothing |
| Netlist.ItolWithNumber | src/parser.c:139-141 | `ITOL=1e-6` sets itol to `1e-6` |
| Netlist.Parser.ApplyOptions | src/parser.c:132-142 | the loop over the arguments applies the three tests to each argument in order, ITOL only when its value converts, and changes nothing but the options |
| Netlist.KindOf | src/parser.c:130-174 | a line is an element line exactly when its first field does not start with `.`; `.OPTIONS`, `.DC`, `.PLOT`/`.PRINT` are recognised by exact comparison |
| Netlist.TokenizedIsTokenLine | src/parser.c:129 | every accepted line has a count field that reads back as the number of fields that follow |
| Netlist.DcFillsCurrentSlot | src/parser.c:144-151 | `.DC` writes the source name of slot `dc_counter`, and each of start, end and increment whose text converts; a bound that does not convert keeps its old value. The slot keeps its nodes; the counter, other slots, options and element count stay the same |
| Netlist.DcBoundWithoutNumber | src/parser.c:148-150 | a `.DC` start of `x` leaves the slot's start as it was, while an end of `5` is stored |
| Netlist.StripProbeOfVoltage | src/parser.c:158-161 | dropping the first two bytes and the last byte turns `V(x)` into `x` |
| Netlist.StripNodes | src/parser.c:156-163 | the loop stores every argument, in order, with its first two bytes and last byte dropped |
| Netlist.PlotAdvancesSlot | src/parser.c:152-165 | `.PLOT`/`.PRINT` with `n` tokens stores `n - 1` stripped names in slot `dc_counter`, keeps its source, its bounds and the other slots, and advances the counter by exactly one |
| Netlist.ElementLineCounted | src/parser.c:167-174 | an element line is handed on whole; `num_g2_elem` grows by one exactly when its first field starts with V, v, L or l, and stays put otherwise |
| Netlist.Parser.ParseOptionsLine | src/parser.c:131-143 | the `.OPTIONS` branch updates the parser's fields as `LineEffect` says |
| Netlist.Parser.ParseDcLine | src/parser.c:144-151 | the `.DC` branch updates the parser's fields as `LineEffect` says |
| Netlist.Parser.ParsePlotLine | src/parser.c:152-165 | the `.PLOT`/`.PRINT` branch updates the parser's fields as `LineEffect` says and returns the advanced counter |
| Netlist.Parser.ParseElementLine | src/parser.c:167-174 | the element branch updates the parser's fields as `LineEffect` says |
| Netlist.Parser.ParseLine | src/parser.c:124-181 | one pass of the line loop: a line `tokenizer` rejects changes nothing, an accepted one updates the parser as `LineEffect` says |
| Netlist.NetlistAfterNext | src/parser.c:124-181 | reading line `k` applies that line's step to the parse of the lines before it |
| Netlist.LineCounters | src/parser.c:152-174 | one line raises `dc_counter` by one exactly when it is `.PLOT`/`.PRINT`, `num_g2_elem` by one exactly when it is a V/L element line, and never sets SPARSE |
| Netlist.Parser.ParseTokens | src/parser.c:129-174 | the dispatch on the first field updates the parser as `LineEffect` says; the stored counters are untouched |
| Netlist.ParseNetlist | src/parser.c:108-188 | after the line loop the parser holds the result of `NetlistAfter` over all lines, including the final `dc_counter`, and `num_nodes` is `hash_table->seq - 1` |
| Netlist.CountersOverFile | src/parser.c:124-187 | over a whole file, `dc_counter` grows by the number of `.PLOT`/`.PRINT` lines, `num_g2_elem` by the number of V/L element lines, and SPARSE is never set |
| DcAnalysis.DcOperatingPoint | src/dc_analysis.c:17-35 | the rows written are `Report` of all entries, bucket by bucket and chain by chain |
| DcAnalysis.ReportChain | src/dc_analysis.c:21-34 | the cursor walk over one chain appends the rows of its non-ground entries, in chain order |
| DcAnalysis.ReportSnoc | src/dc_analysis.c:23-33 | one more entry adds no row if its id is 0, else the row with its key and `sol_x[id - 1]` |
| DcAnalysis.ReportSound | src/dc_analysis.c:23-33 | every row written comes from an entry with a non-zero id and shows `sol_x[id - 1]` |
| DcAnalysis.ReportComplete | src/dc_analysis.c:23-33 | every entry with a non-zero id is written with `sol_x[id - 1]` |
| DcAnalysis.ReportLength | src/dc_analysis.c:20-35 | there are exactly as many rows as entries with a non-zero id |
| DcAnalysis.FindSource | src/dc_analysis.c:47-50 | the search returns the first element whose name equals the source, or nothing exactly when no element has that name |
| DcAnalysis.FileNameFields | src/dc_analysis.c:56-60 | for `_`-free source and node names, the file name splits on `_` into `dc`, `analysis`, the source, and the node with `.txt` |
| DcAnalysis.OpenFiles | src/dc_analysis.c:54-68 | one file per probed node, in node order, named `dc_analysis_` + source + `_` + node + `.txt`, with no rows yet |
| DcAnalysis.Zeroed | src/dc_analysis.c:77-78 | entries `0 .. size - 1` become 0 and all later entries keep their values |
| DcAnalysis.ZeroOut | src/dc_analysis.c:77-78 | the array holds `Zeroed` of its old contents |
| DcAnalysis.StepValueNext | src/dc_analysis.c:104 | `val += increment` moves from the value of step `k` to the value of step `k + 1` |
| DcAnalysis.SweepCoversRange | src/dc_analysis.c:70-80 | for a positive increment and start <= end the loop runs at least once, every swept value lies in [start, end], and one more step would pass end |
| DcAnalysis.StampEffect | src/dc_analysis.c:81-95 | a V/v source writes `val` at `volt_indx` only; an I/i source writes `val` at `probe2 - 1` when probe1 is ground, `-val` at `probe1 - 1` when probe2 is ground, both otherwise; any other source leaves b unchanged |
| DcAnalysis.Stamp | src/dc_analysis.c:81-95 | the array b holds `StampedRhs` of its old contents |
| DcAnalysis.StampAndSolve | src/dc_analysis.c:81-97 | one step stamps b and replaces the solution by the solver's result from the stamped b and the previous solution |
| DcAnalysis.StepsMeaning | src/dc_analysis.c:80-105 | step `k` sweeps `start + k * increment`, stamps it onto the right-hand side left by step `k - 1`, and solves from the solution of step `k - 1` (the zeroed vector for step 0) |
| DcAnalysis.WriteStep | src/dc_analysis.c:99-103 | each file gets exactly one more row, the step value and its node's solution entry; names are unchanged |
| DcAnalysis.FilesHoldNext | src/dc_analysis.c:99-103 | after a step's rows, each file holds its node's column of all steps so far |
| DcAnalysis.StepsNext | src/dc_analysis.c:81-97 | one more step extends the trace by the record of the value stamped, the right-hand side and the solution |
| DcAnalysis.SweepStep | src/dc_analysis.c:81-104 | one pass of the step loop extends the trace by one step, leaves b and sol_x at that step's right-hand side and solution, and keeps every file equal to its node's column |
| DcAnalysis.RunSteps | src/dc_analysis.c:70-105 | the step loop runs `Iterations` times, leaves each file with its node's column of the step trace, and leaves b and sol_x at the last step's right-hand side and solution (unchanged when no step runs) |
| DcAnalysis.SweepOne | src/dc_analysis.c:51-109 | for a found source, the files are named per node and hold the step values and solution entries of `Steps` from the old b and the zeroed solution; b and sol_x end at the last step's vectors |
| DcAnalysis.ColumnsFollowSweep | src/dc_analysis.c:99-104 | every row of every sweep file starts with the value swept at that step |
| DcAnalysis.FoundRunFits | src/dc_analysis.c:47-104 | the sweep of the first element named like the source, one column per node, fits the analysis: file names per node and `Iterations` rows with the step values |
| DcAnalysis.FoundSwept | src/dc_analysis.c:70-105 | the files and final vectors of such a sweep are the columns and last vectors of `Steps` from b and the zeroed solution |
| DcAnalysis.FoundStep | src/dc_analysis.c:46-111 | a sweep of the first element named like the source is one analysis step in the sense of `AnalysisStep` |
| DcAnalysis.AbsentSourceUnconstrained | src/dc_analysis.c:46-50 | an analysis whose source names no element is skipped, so `SweepAnalysis` and `DcSweep` accept it whatever nodes it probes, ground or unknown |
| DcAnalysis.EmptySweepUnconstrained | src/dc_analysis.c:70-80 | a sweep whose step loop runs no time (`.DC V1 5 0 1`: `n_steps` is -5) stamps and reads nothing, so it is accepted even when it probes ground |
| DcAnalysis.LaterNamesakeUnconstrained | src/dc_analysis.c:47-110 | only the first element named like the source is swept (the `break`), so a later namesake with out-of-range probes does not exclude the analysis |
| DcAnalysis.SweepAnalysis | src/dc_analysis.c:46-111 | one analysis gives files exactly when some element has the source's name, and then sweeps the first such element as `RunFits` says. Without such an element b and sol_x are untouched; with one, each file holds its node's column of `Steps` from the old b and the zeroed sol_x, and b and sol_x end at that sweep's last vectors |
| DcAnalysis.SweepChainNext | src/dc_analysis.c:46-111 | a chain of analysis steps extends by one more analysis that starts where the chain ended |
| DcAnalysis.SweepChainRuns | src/dc_analysis.c:46-111 | along a chain, each analysis has a run exactly when its source names an element, and that run fits the analysis |
| DcAnalysis.DcSweep | src/dc_analysis.c:40-115 | an analysis produces files exactly when some element has the source's name; it sweeps the first such element, one file per node, `Iterations` rows each, with step values `start + k * increment`. Analysis `i` starts from the b and sol_x that analysis `i - 1` left, so a stamped source value carries over; the first starts from the old arrays and the last leaves the final ones |
| PlotFiles.FilterMembers | plot.py:235-245 | a name is in a bucket exactly when it is in the listing and contains the kind's prefix |
| PlotFiles.FilterAppend | plot.py:235-245 | buckets keep listing order: the bucket of a concatenation is the concatenation of the buckets |
| PlotFiles.Collect | plot.py:235-237 | the append loop builds exactly `Filter` of the listing |
| PlotFiles.GetAnalyses | plot.py:216-251 | each bucket is the filter of its own listing by its own prefix |
| PlotFiles.BucketsOverlap | plot.py:227-245 | the buckets are not a partition: one name can be in both the TRAN and the AC bucket |
| PlotFiles.NonEmptyFilter | plot.py:261 | a bucket is non-empty exactly when some listed name contains its prefix |
| PlotFiles.CheckAfterGet | plot.py:254-263 | the program goes on exactly when some listing has a name with its kind's prefix, and stops when all three buckets are empty |
| PlotFiles.GetSweep | plot.py:266-285 | the first file naming LIN or LOG decides, LIN tested before LOG in that file; no result (exit) exactly when no file names either |
| PlotFiles.GetPaths | plot.py:288-318 | the map has a key exactly for the kinds with files, each mapped to `./plots/<KIND>/`; the created folders are exactly the missing ones, and the flag tells whether there were any; a kind's folder is created exactly when that kind has files and its folder is missing |
| PlotFiles.CreateFolders | plot.py:309-313 | the loop creates exactly the folders that do not exist yet |
| PlotFiles.FoldersDistinct | plot.py:300-307 | the three folder paths differ, so each kind's folder is created for that kind alone |
| PlotFiles.FigureNumber | plot.py:167 | the figure number is one more than the number of positions in the folder listing whose name ends in `.png`, hence between 1 and one more than the listing's length |
| PlotFiles.PngCountIsIndices | plot.py:167 | the count of `.png` names built up name by name equals the number of listing positions whose name ends in `.png` |
| PlotFiles.NextFigureNumber | plot.py:167-168 | adding a `.png` to the folder raises the next figure number by one; any other name leaves it unchanged |
| PlotFiles.FigurePathShape | plot.py:166-168 | the saved figure path starts with the kind's folder and ends with the kind's suffix |
| PlotFiles.LastFlags | plot.py:155-159 | `last` is true for the final file only |
| PlotSeries.LabelPiece | plot.py:35-38 | for a name of `_`-free pieces, the DC/TRAN label is piece 3 if the name contains `dc` and piece 2 otherwise, and the AC label is piece 2; a missing piece is an IndexError |
| PlotSeries.SweepFileLabel | plot.py:35-36 | a file named as `dc_sweep` names it is labelled by its node name with `.txt` |
| PlotSeries.TransientNodeWithDc | plot.py:35-38 | a transient file `tr_analysis_<node>` whose `_`-free node name contains `dc` is read with field 3, which it lacks, so the label lookup fails |
| PlotSeries.MatchesMembers | plot.py:47-53 | every tuple read comes from a line that matches, and every matching line gives its tuple |
| PlotSeries.MatchesAppend | plot.py:47-53 | tuples keep line order |
| PlotSeries.MatchesCount | plot.py:47-53 | there are exactly as many tuples as matching lines |
| PlotSeries.ReadPairs | plot.py:43-53 | the two columns have equal length and hold, pair by pair, the matches of the lines after the header |
| PlotSeries.ReadTriples | plot.py:72-85 | the three columns have equal length and hold, triple by triple, the matches of the lines after the header |
| PlotSeries.SweepRowMatches | plot.py:45 | a line made of an unsigned number, whitespace, a signed number and trailing whitespace is read as exactly that pair |
| PlotSeries.ArangeValues | plot.py:116 | `arange` gives `start + i * step`, all short of end, and the next value would reach end |
| PlotSeries.EndNotInArange | plot.py:116-120 | end is never among the `arange` values, so it is always appended |
| PlotSeries.XTicksShape | plot.py:99-126 | when ticks are set, the limits are the first and last frequency, the ticks are `start + i * step`, and the last tick is end |
| PlotSeries.XTicksRise | plot.py:113-120 | for a rising sweep with at most two zeros, ticks are set and strictly rise |
| PlotSeries.PlotDcOrTranFile | plot.py:27-55 | fails exactly when the label lookup fails; otherwise the series has that label and the matched columns of the lines after the header |
| PlotSeries.PlotAcFile | plot.py:58-96 | LIN puts magnitudes on the magnitude subplot and phases on the phase subplot; LOG swaps them; `set_xticks` runs exactly for the last file of a LIN sweep |

## Left out

- Tokenizer.IsVisible: `line[i] > 32` is read with a signed `char`, as on x86, so bytes above 127 are negative and not counted. Where `char` is unsigned, as on AArch64 Linux, those bytes count as visible; `Tokenizer.GetNumTokens` and `Tokenizer.ControlByteIgnored` assume the signed reading.
- Tokenizer.Tokenize: the `strtok` walk over the buffer is not modelled step by step. The method copies the fields of the specification function `Fields`, whose splitting is stated by `FieldsAreWords`, `FieldsOfSpaced` and `FieldsIgnoreLeadingTab`.
- Files, the console and the process are not modelled:
  - `fopen`/`fclose` failures and `exit`;
  - the header lines and the `%-15s`/`%-15lf` column formatting;
  - the operating-point file name (`dc_opearting_point.txt`, spelled so in the source);
  - `print`, `sys.exit`, `KeyboardInterrupt`.
  - Listings, the set of existing paths and file lines are inputs. Folders to create and figure paths are returned as data.
- All matplotlib calls are left out: titles, labels, legends, limits, `savefig` and `plt.show`. `plot_analyses` is modelled only through `LastFlags` and the figure numbering. The `.png` extension that `savefig` adds is not part of `FigurePath`.
- Several helpers are parameters or left out:
  - `solve_mna_system`, `g2_elem_indx` and `ht_get_id` are function parameters.
  - `add_to_list`, the element lists and the hash table are not part of this model. Element lines are recorded as their fields. `add_to_list` failing, which ends the program, is not modelled.
  - The hash table is given as its chains, each a sequence of entries.
- Numeric conversions are opaque:
  - `sscanf("%lf")` of the ITOL value and of the `.DC` bounds is kept as the text it reads when that text converts (`ScansReal`), and the number itself is not computed. The test follows `strtod`'s accepted starts; hexadecimal floats are covered by the digit case and `infinity` by `inf`.
  - `int(float(...))` in `set_xticks` is the parameter `toInt`.
  - Doubles are `real`, so the accumulated `val += increment` has no rounding error.
- DcAnalysis.Iterations: the 32-bit `int` overflow of `n_steps` for huge ranges is not modelled. A zero increment runs no step, as its NaN/infinite quotient converts to INT_MIN on x86.
- DcAnalysis.Iterations: the bounds are exact `real`s, not doubles. C computes `n_steps` from a rounded quotient: a sweep from 0 to 0.3 by 0.1 gives 2.9999999999999996, so C writes 3 rows where the model gives 4. The row count can therefore differ by one, and `SweepCoversRange`'s "one more step would pass end" holds only in exact arithmetic.
- Output files with the same name overwrite each other in C (`fopen` with `"w"`), for a node probed twice or two analyses sharing source and node. The model keeps each file as a separate entry of the result.
- Out-of-range reads and C memory defects are left out:
  - `DC_ANALYSIS_NUM` bounds the slot array in C. The model's slots are a map without that bound.
  - A `.DC` line with fewer than four arguments (fewer than five fields) reads past the token array in C. The missing argument is modelled as the empty string: the source name becomes empty and a missing bound keeps its old value.
  - A bound never written is uninitialised memory in C (`malloc`); the model shows it as `None`.
  - A `.PLOT` argument shorter than 3 bytes underflows `strlen - 3` in C; it is modelled as the empty name.
  - An `ITOL` argument of exactly 4 bytes makes `sscanf` read past the terminator; it is modelled as leaving itol alone.
  - Also left out: the one-byte `malloc` for `tokens[0]`, the missing room for terminators, the unterminated `strncpy`, and the `free` loop that skips the last token.
- The NUL bytes that `strtok` writes into the line are not modelled. Only the leading-tab rewrite is modelled on the buffer.
- `solve_mna_system` receives `&sol_x` and may move the vector; the model writes the new solution into the same array.
- PlotSeries.MatchPair and PlotSeries.MatchTriple stand in for `re.search`. They match only lines whose leading whitespace-separated words are the numbers the pattern describes. `re.search` also finds a match later in a line or inside a word; for example, it reads `-0.5` in the first column as `0.5`.
- Python 2 dictionaries have no fixed order, so the folders `get_paths_create_folders` creates are returned as a set.
- The names of transient and AC output files come from code that is not part of this model.
