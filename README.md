# k-nearest-neighbour classifier and regressor: a Dafny model

`src/knn.c` reads a comma-separated training table and then answers queries.
It predicts a label (classification) or the mean output of the k nearest
training points (regression). This project models its core in Dafny and
proves properties of that model:

- **Flag validation** (`process_args`), module `Args` in `args.dfy`.
  - `-h`/`--help` anywhere asks for the usage text.
  - Flags are looked for at positions 1 .. argc-2 only. The last argument is the file name.
  - The defaults are k = 5, four threads and label column -1 (as `size_t`).
  - Three flag conflicts end the run with `EX_USAGE`.
- **Field test and splitting** (`is_label`, `strtok(…, ",")`), module `Tokens` in `tokens.dfy`.
  - A field is non-real when one of its characters is not a digit, `.` or `-`.
  - Splitting returns the maximal non-empty runs of non-comma characters.
- **Schema inference** (`count_lines`), module `Schema` in `schema.dfy`.
  - The sample count is the number of `'\n'` characters, held in a `uint16_t`.
  - A first line with two or more non-real fields is a header. A header lowers the sample count by one.
  - The number of columns comes from the first line.
  - The label column is detected on the second line. This step has three exits with `EX_DATAERR`.
- **Row parsing** (`parse_training_line`, `parse_query_line`), module `Rows` in `rows.dfy`.
  - A line becomes a data point. Its features are filled slot by slot into a buffer.
- **Plurality vote** (`find_classification`), module `Vote` in `vote.dfy`.
  - Parallel arrays hold the labels seen and their counts.
  - The first strict maximum wins, so the earliest-seen label wins a tie.
- **One query** (`comp_dist`, the dimension check of `euclid_dist`, the distance pass, `qsort` and the use of the first k entries in `knn`), module `Neighbours` in `neighbours.dfy`.

Shared definitions:

- `basics.dfy` holds the exit reasons and their `sysexits.h` statuses (`EX_OK` 0, `EX_USAGE` 64, `EX_DATAERR` 65), plus explicit wrap-around for `size_t` (mod 2^64) and `uint16_t` (mod 2^16).
- `records.dfy` holds the records: `options_t`, `data_point_t` and `distance_t`.

How the C code maps to Dafny:

- Every `exit(...)` of the core is a `Fail(reason)` result. `ExitStatus` gives the status the program would exit with.
- `atoi`, `strtod` and the distance metric are function parameters.
- Distances and outputs are `real`.
- A `distance_t` refers to its training point by index (`paired`), not by pointer.
- The functions that write through `options_t *` return the updated options instead.

The code departs from the program's intended rules in several places. The model takes one position on each:

- **Label line.** The code detects the label column on the second line of the file (src/knn.c:242, 271-296), even when the first line is not a header. The intended rule inspects the first line that is not a header, which is line 1 when there is no header. The two agree when the first line is a header. The model follows the code.
- **Two non-real fields.** In the code, a second non-real field on that line always fails as a label mismatch (`TwoNonRealFieldsMismatch`), because the first one has already set `label_defined`. So the "more than one non-real column" exit cannot be reached. The model follows the code.
- **Ties in the sort.** After `qsort`, equal distances may be in any order. The intended rule breaks ties by sample index. The model follows the code and asserts no tie order.
- **Label column with classification.** A label column could name the label for a classification run. The code instead rejects `-c` together with `-l` with `EX_USAGE` (src/knn.c:200-207). The model follows the code.
- **Error kinds.** The intended rules have parse errors for a row with the wrong number of columns and for a field that is not a number. They also have an error for an empty neighbour set, and they let a query fail without ending the run. The code has none of these: it has no such checks, and its one query error (differing feature counts) ends the program with `EX_DATAERR`. The model has only the code's exits. The missing checks become preconditions (see Left out).
- **k too large.** The intended rule rejects a k greater than the number of samples. The code does not check this and reads past the distances. The model follows neither: 1 <= k <= the number of samples is a precondition.
- **The three defects under Findings.** These are the header test, the vote's slot and the regression slot. The model states each as written and shows the discrepancy, then uses the corrected behaviour.

All `.dfy` files are verified together:

```
dafny verify --resource-limit 2000000 --verification-time-limit 0 --warn-contradictory-assumptions *.dfy
```

## Model

| member | source | states |
|---|---|---|
| Basics.ExitStatus | src/knn.c:130-476 | the exit status of each reason the core stops: `EX_OK` exactly for the help request, `EX_USAGE` exactly for the three flag conflicts, and `EX_DATAERR` for every other reason |
| Basics.ToSize | src/knn.c:142 | the `size_t` value of a C `int` is the int modulo 2^64: unchanged when in range, -1 becomes 2^64-1 |
| Basics.ToU16 | src/knn.c:234-235 | `uint16_t` arithmetic is modulo 2^16; -1 becomes 65535 |
| Basics.U16Increment | src/knn.c:235 | incrementing the `uint16_t` line count wraps 65535 to 0 and otherwise adds one |
| Basics.U16Decrement | src/knn.c:261 | decrementing the `uint16_t` line count wraps 0 to 65535 and otherwise subtracts one |
| Tokens.IsLabel | src/knn.c:216-230 | the scan returns true exactly when some character of the field is not a digit, `.` or `-` |
| Tokens.RealExamples | src/knn.c:216-230 | "", "1.2.3", "--" and "-0.5" count as real; "A", "3\n" and "1e5" count as non-real |
| Tokens.Split | src/knn.c:244-255 | every token strtok returns is non-empty and comma-free, and there is none exactly when the string holds only commas |
| Tokens.NonEmptyFields | src/knn.c:244-255 | the fields kept are non-empty, drawn from the given ones, and no more of them than given |
| Tokens.SplitJoinDropsEmpty | src/knn.c:244-255 | splitting comma-free fields joined with commas gives back the non-empty ones in order: empty fields between, before or after commas vanish |
| Tokens.EmptyFieldVanishes | src/knn.c:322 | the line "1,,2" yields the tokens "1" and "2" |
| Tokens.OuterEmptyFieldsVanish | src/knn.c:391 | the line ",a," yields the single token "a" |
| Tokens.SplitJoin | src/knn.c:244-255 | splitting non-empty, comma-free fields that were joined with commas gives back exactly those fields |
| Args.HelpRequested | src/knn.c:132-136 | help is asked for exactly when `-h` or `--help` is one of the arguments, the program name included |
| Args.FlagOf | src/knn.c:151-183 | only an argument that starts with `-` and has at least two characters selects a branch of the flag loop, and `-h`/`--help` selects none |
| Args.ShortFlagSpellings | src/knn.c:151-183 | `-c`, `-r`, `-l`, `-k` and `-t` select their branches, while `-x` and `c` select none |
| Args.LongFlagSpellings | src/knn.c:151-183 | `--classification`, `--regression`, `--label-column`, `--k-nearest` and `--threads` select their branches, while `--class` selects none |
| Args.LastFlagMeans | src/knn.c:149-185 | the last occurrence of a flag found below a bound is that flag, no later position holds it, and none is found exactly when no position 1.. holds it |
| Args.GivenMeans | src/knn.c:149-185 | a flag is given exactly when it occurs at one of the positions 1 .. argc-2 |
| Args.LastFlag | src/knn.c:149-185 | an occurrence found lies at one of the positions 1 .. hi-1 |
| Args.OptionValue | src/knn.c:165-184 | an absent option keeps its default, and a given one has a `size_t` value, below 2^64 |
| Args.OptionValueStep | src/knn.c:165-184 | scanning one more position: an occurrence of the option replaces its value by atoi of the next argument as `size_t`, and otherwise the value is kept |
| Args.ScanFlags | src/knn.c:139-185 | the three flag booleans say whether `-c`, `-r` and `-l` were given; without both modes, the options are those with k, threads and label column taken from the last occurrence of each option, or 5, 4 and -1 |
| Args.ProcessArgs | src/knn.c:130-214 | help anywhere, the program name included, gives exit status 0; otherwise both modes, `-r` without `-l` and `-c` with `-l` fail in that order, and any other argument list is accepted with the last argument as file name |
| Args.Accepted | src/knn.c:139-213 | accepted options name the last argument as file, and k, thread count and label column are each their default or a `size_t` value |
| Args.Defaults | src/knn.c:139-145 | with no flags: k = 5, four threads, no label column (2^64-1), neither mode, the file name last |
| Schema.CountNewlines | src/knn.c:234-235 | the loop counts the `'\n'` characters of the file modulo 2^16 |
| Schema.LineEnd | src/knn.c:242-271 | the line getline reads from a position ends after the first `'\n'` there, or at the end of the file, and is non-empty unless the file ends at that position |
| Schema.FirstLineMeans | src/knn.c:242 | the first line begins the file, holds no `'\n'` before its end, ends in `'\n'` unless the file ends there, and is non-empty for a non-empty file |
| Schema.SecondLine | src/knn.c:271 | the second line of a file that has one is non-empty |
| Schema.SecondLineMeans | src/knn.c:271 | the second line follows the first in the file, holds no `'\n'` before its end, and ends in `'\n'` unless the file ends there |
| Schema.DropLastMeans | src/knn.c:272 | the second line loses its last character, whatever it is, before it is split |
| Schema.StripNewlineMeans | src/knn.c:317-320 | a training line is kept as it is, or loses exactly one final `'\n'`, and it loses one exactly when it ends in `'\n'` |
| Schema.ScanFirstLine | src/knn.c:244-256 | the loop counts the fields of the first line and the non-real ones among them |
| Schema.NonRealUpToMeans | src/knn.c:277-296 | the positions collected are exactly the non-real fields' positions, in increasing order |
| Schema.TwoNonReal | src/knn.c:258 | at least two positions are collected exactly when two distinct fields are non-real |
| Schema.SplitRow | src/knn.c:316-322 | a row of fields ending in `'\n'` splits, once the `'\n'` is removed, into exactly those fields |
| Schema.SplitRowAsWritten | src/knn.c:242-244 | the same row split with its `'\n'` keeps the `'\n'` on the last field |
| Schema.NewlineNonReal | src/knn.c:216-230 | a field that still ends in `'\n'` is non-real |
| Schema.HeaderAsWritten | src/knn.c:244-258 | the header test as written holds exactly when two distinct fields of the first line, split with its `'\n'` attached, are non-real |
| Schema.HasHeader | src/knn.c:244-266 | the corrected header test holds exactly when two distinct fields of the first line, split without its `'\n'`, are non-real |
| Schema.HeaderOfRow | src/knn.c:258-266 | the corrected header test holds for a row exactly when two of its fields are non-real |
| Schema.HeaderAsWrittenCountsLastField | src/knn.c:242-258 | the header test as written holds for a row exactly when one of its fields other than the last is non-real |
| Schema.HeaderMisdetectedRow | src/knn.c:242-258 | every headerless row whose only non-real field is not the last one passes the header test as written and fails the corrected one |
| Schema.HeaderMisdetected | src/knn.c:242-258 | the line "1,A,2\n" passes the header test as written but not the corrected one |
| Schema.EarlyMismatch | src/knn.c:282-289 | stopping at the first non-real field that disagrees with the label column gives the same mismatch as the whole line |
| Schema.LabelFromSingleNonRealField | src/knn.c:279-293 | a single non-real field at j sets label column j, label defined and classification, unless regression was asked for or a different column was given |
| Schema.AllRealKeepsOptions | src/knn.c:277-307 | a second line without non-real fields leaves the options as they are |
| Schema.TwoNonRealFieldsMismatch | src/knn.c:282-307 | two non-real fields always end in the label-mismatch exit, so the "more than one non-real column" exit is never reached |
| Schema.GivenColumnDisagrees | src/knn.c:282-289 | a non-real field outside the column given with `-l` ends in the label-mismatch exit |
| Schema.RegressionRejectsNonReal | src/knn.c:298-302 | with regression, any non-real field fails with `EX_DATAERR` |
| Schema.DetectLabel | src/knn.c:271-307 | label detection fails only with the label-mismatch or non-real-for-regression exit. On success it changes at most the label column, label defined and classification. When it changes them, the result is a defined classification label at a non-real column of the line, and regression was not asked for. With regression, success leaves the options unchanged |
| Schema.InferSchema | src/knn.c:232-312 | schema inference fails only with the two label exits. On success, the sample count is below 2^16, the header flag is the corrected header test of the first line, the column count is the number of first-line fields, and k and the regression flag are unchanged |
| Schema.InferSchemaSampleCount | src/knn.c:234-261 | for every file, the sample count is the number of `'\n'` characters as a `uint16_t`, one fewer when the first line is a header |
| Schema.InferSchemaOfTable | src/knn.c:242-307 | for a file whose first two lines are rows of cells: the columns are the cells of the first row, a header means two non-real cells there and one sample fewer, and the label fields and errors come from the second row |
| Schema.ScanSecondLine | src/knn.c:271-307 | the label loop with the two checks after it computes the closed-form label detection, including its error exits |
| Schema.CountLines | src/knn.c:232-312 | count_lines computes the options (header, columns, label) and the sample count of the closed-form schema |
| Rows.WithoutRestores | src/knn.c:331-359 | the features are the row without the label column: putting the label back at its column rebuilds the row, and feature j is column j before the label and column j+1 after it |
| Rows.FeatureSlot | src/knn.c:351-355 | a column before the label keeps its slot, and a column after it moves down by exactly one |
| Rows.FeatureSlotAsWritten | src/knn.c:334-355 | the slot map as written is the intended one for classification and leaves every column at its own position for regression |
| Rows.FeatureSlotBijective | src/knn.c:351-355 | the intended slot map sends the non-label columns, in order and one to one, onto the num_columns - 1 buffer slots |
| Rows.SlotsAgree | src/knn.c:334-355 | the slot map as written agrees with the intended one for classification, and for regression with the label in the last column |
| Rows.RegressionSlotOverflow | src/knn.c:343-349 | for regression with the label before the last column, the last column is written one past the buffer and slot `label_column` is never written |
| Rows.RegressionSlotWitness | src/knn.c:343-355 | with three columns and `-l 0 -r`, column 2 goes to slot 2 instead of slot 1 |
| Rows.FilledFeatures | src/knn.c:331-355 | a buffer filled column by column, skipping the label column, holds the parsed row without its label, each column at its intended slot |
| Rows.TrainingTokensMeans | src/knn.c:316-322 | every token of a training line is a field, and the line is split like a query line once its final `'\n'`, if any, is removed |
| Rows.MissingLabel | src/knn.c:363-376 | without a label column, the classification run exits with the no-label reason and the regression run with the no-label-column reason, both with `EX_DATAERR` |
| Rows.ParseTrainingLine | src/knn.c:314-380 | with no label column the call fails with `EX_DATAERR`; otherwise the label is the token at the label column, the num_columns - 1 features are the other tokens parsed in order, with column c at slot c before the label and c - 1 after it, and the output feature is 0 for classification or the parsed label for regression |
| Rows.TrainingTokensOfRow | src/knn.c:316-322 | a training line made of fields and `'\n'` yields exactly those fields |
| Rows.ParseQueryLine | src/knn.c:382-403 | the query has the given feature count, feature i is the parsed i-th token, no label, `label_is_double` true and output 0 |
| Rows.QueryTokens | src/knn.c:391-398 | every token of a query line is a field |
| Rows.QueryTokensKeepNewline | src/knn.c:391-400 | a query line is split without removing its `'\n'`, which therefore stays on the last token |
| Rows.QueryTokensOfRow | src/knn.c:391-400 | a query made of comma-joined fields yields exactly those fields |
| Vote.PluralityUnique | src/knn.c:518-529 | the vote has at most one winner |
| Vote.UnanimousVote | src/knn.c:484-529 | when all k neighbours share a label, that label wins |
| Vote.MajorityWins | src/knn.c:484-529 | a label that occurs more often than every other one wins |
| Vote.TallyOfTallied | src/knn.c:484-516 | the tally lists each distinct label once, in order of first appearance, with its number of occurrences |
| Vote.TallyWinner | src/knn.c:518-527 | the first strict maximum of the counts is the label with the most votes, the earliest-seen among equals |
| Vote.FindLabel | src/knn.c:497-507 | the lookup returns the first slot among the used ones that holds the label, or reports that none does |
| Vote.LookupAsWritten | src/knn.c:497-507 | the slot the lookup as written reports is one of those scanned below num_unique_labels and holds the label |
| Vote.LookupFrom | src/knn.c:497-507 | when slots 0..m-1 hold labels and slot m is empty if m < num_unique_labels, the lookup as written finds the first slot holding the label, or else reaches the empty slot m (strcmp with NULL), or else reports the label as new |
| Vote.FirstMaxIndex | src/knn.c:518-527 | the scan returns an index of maximal count with every earlier count strictly smaller, and that index is `Vote.FirstMax` of the used counts, the scan the vote as written uses |
| Vote.FirstMax | src/knn.c:518-527 | the scan's index lies within the counts |
| Vote.FirstMaxSpec | src/knn.c:518-527 | the scan's index holds a count no other count exceeds, and every earlier count is strictly smaller |
| Vote.AddLabel | src/knn.c:486-515 | one step of the tally: a known label has its count raised, and a new one is appended in the next free slot with count 1 |
| Vote.CountLabels | src/knn.c:480-516 | the arrays built over the neighbours' labels hold the tally of those labels |
| Vote.FindClassification | src/knn.c:478-539 | the returned label is the plurality of the first k neighbours' labels: one of them, of maximal count, the earliest seen among equal counts |
| Vote.ArraysElect | src/knn.c:518-529 | the label in the tally's slot of the first strict maximum of the counts is the plurality label |
| Vote.NeighbourLabels | src/knn.c:484-486 | the labels read are k in number, label i being that of the training point neighbour i refers to |
| Vote.SlotBugWitness | src/knn.c:509-514 | for neighbour labels A, A, B, B the vote as written reads an empty slot, while the intended winner is A |
| Vote.TallyAsWritten | src/knn.c:484-516 | the tally as written, where defined, ends with as many labels as counts |
| Vote.AlignedElects | src/knn.c:484-529 | if the used slots hold the intended tally of the labels seen so far and the rest are empty, then the rest of the tally as written, where defined, leaves the plurality label at the first strict maximum of its counts |
| Vote.MisalignedElects | src/knn.c:484-529 | the same conclusion holds after a new label was stored past the used slots, leaving the last used slot empty |
| Vote.VoteAsWritten | src/knn.c:484-529 | where the vote as written is defined, it returns the plurality label of the neighbours: one of them, of maximal count, the earliest seen among equal counts |
| Neighbours.CompDist | src/knn.c:47-63 | the comparator returns -1, 0 or 1 |
| Neighbours.CompDistMeans | src/knn.c:47-63 | the comparator is negative, zero or positive exactly as the first distance is smaller than, equal to or greater than the second |
| Neighbours.CompDistOrder | src/knn.c:47-63 | the comparator is antisymmetric and transitive |
| Neighbours.EuclidDist | src/knn.c:456-476 | the distance fails with `EX_DATAERR` exactly when the two feature counts differ, and it is otherwise the metric of the two feature vectors paired with the training point |
| Neighbours.PairDistances | src/knn.c:556-568 | there is one distance per sample, and entry i is the metric of sample i's features and the query's, paired with sample i |
| Neighbours.ComputeDistances | src/knn.c:556-568 | the pass succeeds exactly when every sample has the query's feature count, and then entry i is the distance of sample i |
| Neighbours.SortDistances | src/knn.c:570 | the distances end up in ascending order and are a permutation of the input |
| Neighbours.NearestFirst | src/knn.c:570-586 | after sorting, any training point nearer than one of the first k entries is among them |
| Neighbours.PermutationPaired | src/knn.c:570 | a permutation of the distances refers only to existing training points |
| Neighbours.RegressionAverage | src/knn.c:581-586 | the average is the sum of the first k neighbours' outputs divided by k |
| Neighbours.SumOutputsBounds | src/knn.c:581-586 | outputs within [lo, hi] give a sum within [k lo, k hi] |
| Neighbours.MeanOfIdentical | src/knn.c:581-586 | neighbours that share one output give that output as the average |
| Neighbours.Predict | src/knn.c:554-588 | a query fails exactly when some sample's feature count differs from the query's. Otherwise the distances are an ascending permutation of the per-sample distances. Classification returns the plurality label of the first k entries, and regression the mean output of the first k |

## Left out

- File and stream I/O is not modelled. This covers `fopen`, `fscanf`, `getline`, `fseek`, the stdin query loop, `printf`, the usage text and `print_data_point`. The training file is a string, the lines are strings, and the query loop is one `Predict` per query.
- `parse_file` is not modelled. It feeds the lines after an optional header to `parse_training_line`, and it stores one sample for every line getline returns, with no bound (src/knn.c:417-421). A file whose last line lacks a `'\n'` therefore yields one sample more than count_lines counted, since that count is the number of `'\n'` characters (src/knn.c:235). The extra sample is written past the end of `samples`. The model does not capture this write.
- `main` is not modelled. It chains the steps. It exits with `EX_USAGE` when `argc < 2`, and with `EX_IOERR` when `fopen` fails (src/knn.c:596-609). `Basics.ExitStatus` therefore has no `EX_IOERR` case.
- The OpenMP `parallel for` distance pass is modelled as a sequential loop. Its iterations are independent. The model never uses the thread count. The schedule clause computes `2 * num_samples / num_threads` (src/knn.c:562-564), so a `-t 0`, which `Args.ProcessArgs` accepts, divides by zero in the source. The model has no counterpart of that failure.
- Floating point is not modelled. `strtod`, `atoi` and the Euclidean metric (`pow`, square root) are parameters. Distances and the regression average are reals without rounding or NaN.
- Memory management is not modelled. This covers `malloc`, `calloc`, `strdup`, `free` and `free_training_data`. The allocation size `sizeof(long double) * num_columns - 1` at src/knn.c:329 is not reproduced: the buffer holds num_columns - 1 values.
- Equal distances: `qsort` leaves their order unspecified, and the model asserts none. `SortDistances` is an insertion sort that meets the same contract.
- Missing checks become preconditions: a training line has exactly num_columns tokens, the label column is below num_columns, a query has exactly num_features tokens, and 1 <= k <= the number of samples.
- For classification every training point is assumed to carry a label. `parse_training_line` guarantees this when a label column is defined.
- Schema.CountLines: it requires a file with a second line, because count_lines reads that line unconditionally.
- Rows.ParseTrainingLine: with no label column the source first runs its column loop and then exits. The model exits before the loop, and leaves out the out-of-range writes that loop makes into the buffer.
- Schema.CountLines: the header test is the corrected `Schema.HasHeader` (the first line without its `'\n'`), not the as-written `Schema.HeaderAsWritten` (see Findings). The number of columns is counted on the same line without its `'\n'`. The as-written count differs only for a first line ending in `",\n"` or made of `"\n"` alone.
- Schema.InferSchema: it uses the same corrected header test and column count as `Schema.CountLines`.
- Schema.InferSchemaOfTable: it describes the corrected header test, two non-real cells on the first row, not the as-written one, which also counts the last cell with its `'\n'`.
- Rows.ParseTrainingLine: the features of a regression row follow the intended slot map, not the as-written one (see Findings). The as-written map is modelled by `Rows.FeatureSlotAsWritten`.
- Vote.FindClassification: the new label goes to the next free slot, not to slot i (see Findings). The vote as written is modelled by `Vote.VoteAsWritten`, which, where defined, elects the same plurality label.
- Vote.AddLabel: a new label and its count go to slot num_unique_labels, not to slot i as src/knn.c:511-513 writes (see Findings).
- Vote.CountLabels: the arrays are built with the corrected step `Vote.AddLabel`, so a new label sits at the next free slot, not at slot i (src/knn.c:511-513, see Findings).
- The output feature of a classification point is `FP_NAN` in the source. That is the `fpclassify` category constant (0 in glibc), not a NaN, so the model uses 0.
- Args.ProcessArgs: it requires at least one argument (the program name), as `main` guarantees.
- Fields are Dafny strings of Unicode characters, not NUL-terminated byte strings. In C, an embedded NUL cuts a field short for `strlen` (src/knn.c:220, 317), and `isdigit` on a byte of 0x80 or more is undefined. The model has neither effect: `Tokens.IsLabel` tests every character, and a digit is one of '0' .. '9'.

## Findings

| source | as written | input that shows it | evidently intended | confidence | as-written member | corrected member |
|---|---|---|---|---|---|---|
| src/knn.c:242-258 | the first line is split with its `'\n'` still attached, so its last field always counts as non-real | a headerless classification file whose first line is `1,A,2\n`: one non-real field plus `2\n` makes two, so the first sample is dropped as a header | remove the `'\n'` before the header test, as done for every other line (src/knn.c:272, 317-320) | high, not executed | Schema.HeaderAsWritten, Schema.HeaderAsWrittenCountsLastField, Schema.HeaderMisdetectedRow, Schema.HeaderMisdetected | Schema.HasHeader, Schema.HeaderOfRow, Schema.CountLines |
| src/knn.c:509-514 | a new label is stored at slot i (the neighbour's index) while lookups scan slots 0 .. num_unique_labels-1 | neighbour labels A, A, B, B: B goes to slot 2, and the lookup for the second B compares with the empty slot 1 (strcmp with NULL) | store the new label and its count at slot num_unique_labels | high, not executed | Vote.VoteAsWritten, Vote.SlotBugWitness | Vote.AddLabel, Vote.FindClassification |
| src/knn.c:343-349 | the regression branch also advances `feature_num` at the label column | three columns with `-r -l 0`: column 1 goes to slot 1 and column 2 to slot 2, one past the two-slot buffer, and slot 0 is never written | leave `feature_num` alone at the label column, as the classification branch does | high, not executed | Rows.FeatureSlotAsWritten, Rows.RegressionSlotOverflow, Rows.RegressionSlotWitness | Rows.FeatureSlotBijective, Rows.ParseTrainingLine |
