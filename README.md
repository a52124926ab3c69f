# trello-integration: a Dafny model of the row-to-card pipeline

This project models the batch job in `src/main.py`. The job reads offer rows from a
spreadsheet export and creates one card per row on a Trello board. In order, it:

1. finds the target board, then the target list, by an exact-name linear scan. If either is
   missing, it raises `ValueError` before anything else happens;
2. builds `member_dict` (full name to member id) and `label_dict` (label name to label);
3. drops rows whose `Offer Nummer` is missing or `"0"`;
4. replaces a missing or `"0"` `FIRMA` or `Projektname` with `"BLANKO"`, and a missing
   `Umsatz` with `0`;
5. reclassifies `Status` (`H`/`W`/`L` to `HOT`/`WON`/`LOST`) and `PL` (`PS`/`GG` to full member
   names). Any other value passes through unchanged;
6. splits the rows into consecutive subsets of 100;
7. for every row, runs one try-block: create the card (title, markdown description, due
   date), add the label if the status is a label name, assign the member if `PL` is a member
   name, and fill the `Order Volume` custom field if the card has one. A failure ends that
   row only;
8. pauses 60 seconds between subsets, never after the last one.

Modules, one per file:

- `Wrappers` (`wrappers.dfy`): `Option`.
- `Resolve` (`resolve.dfy`): the board and list scan, and the two dictionaries.
- `Sheet` (`sheet.dfy`): rows, the filter, the cleaning and the reclassification.
- `Cards` (`cards.dfy`): the card payload.
- `Batches` (`batches.dfy`): the split into subsets.
- `Sync` (`sync.dfy`): the card loop and its trace.
- `Pipeline` (`pipeline.dfy`): the whole run.

The remote board is given as data and as an oracle:

- `list_boards()` is a sequence of `Board` values. Each carries its lists, members and labels.
- `Remote.accepts(k, call)` says whether a call made for row `k` succeeds. A call that does
  not succeed raises.
- `Remote.hasOrderVolume(k)` is what `get_custom_field_by_name` finds for row `k`'s card.

A run records a trace. Each remote call is an `Issued(row, call, ok)` event, and each pause is
a `Sleep` event. The two loops are methods (`ProcessSubsets`, `ProcessSubset`) proved equal
to the specification function `SyncEvents`. Cleaning rewrites an array of rows in place
(`CleanInPlace`), as the script rewrites `df_clean` through `.loc`. Everything the pipeline
promises is proved as lemmas about these functions.

Two details of the code that the model keeps:

- A missing board and a missing list both raise a plain `ValueError`. The model tells the
  two apart as `BoardNotFound` and `ListNotFound`.
- The filter checks only that the offer number is present and not `"0"`. An offer number
  that is an empty string is kept.

## Model

| member | source | states |
|---|---|---|
| `Resolve.FirstNamed` | src/main.py:38-58 | no result exactly when no element has the requested name; otherwise the result is an element with exactly that name, and no earlier element has it |
| `Resolve.FindByName` | src/main.py:39-43 | the scan loop with `break` returns exactly the first element with the requested name, or nothing |
| `Resolve.Index` | src/main.py:61 | the dictionary comprehension's keys are exactly the keys of the elements |
| `Resolve.IndexLastWins` | src/main.py:61 | under a key, the dictionary holds the value of the last element with that key |
| `Resolve.MemberIndex` | src/main.py:61 | `member_dict` has exactly the board members' full names as keys |
| `Resolve.LabelIndex` | src/main.py:67-68 | `label_dict` has exactly the board labels' names as keys |
| `Resolve.LabelIndexNamesMatch` | src/main.py:68 | the label stored under a name is one of the board's labels and carries that name |
| `Sheet.Filter` | src/main.py:90 | every kept row has a present offer number that is not `"0"`; every kept row is one of the input rows, and there are no more of them than input rows |
| `Sheet.FilterKeepsOrder` | src/main.py:90 | the kept rows are exactly the rows with an offer number, at increasing original positions, none missing |
| `Sheet.OrBlanko` | src/main.py:93-96 | the result is never missing or `"0"`; a real value is kept; a missing or `"0"` value becomes `"BLANKO"` |
| `Sheet.OrZero` | src/main.py:97 | the result is present; a present value is kept; a missing one becomes 0 |
| `Sheet.CleanRow` | src/main.py:93-97 | a row with an offer number comes out clean; only FIRMA, Projektname and Umsatz change, each as described above |
| `Sheet.CleanInPlace` | src/main.py:93-97 | after the in-place substitutions, every element of the frame is its old row cleaned |
| `Sheet.Reclass` | src/main.py:100 | a key of the table is replaced by its value; every other value, including a missing one, is unchanged |
| `Sheet.ReclassifyRow` | src/main.py:100 | only `Status` and `PL` change, through the status table and the member table |
| `Sheet.StatusCodes` | src/main.py:71 | H, W and L become HOT, WON and LOST; every other status stays as it is |
| `Sheet.MemberCodes` | src/main.py:64 | PS and GG become the two full names; every other code stays as it is |
| `Sheet.ReclassifyIdempotent` | src/main.py:100 | reclassifying twice gives the same as once |
| `Sheet.CleanAll` | src/main.py:93-97 | the cleaned frame has the same rows in the same order; every row with an offer number comes out clean; per row a missing or `"0"` FIRMA or Projektname reads `"BLANKO"`, a missing Umsatz reads 0, filled cells keep their value, and no other column changes |
| `Sheet.ReclassifyAll` | src/main.py:100 | the reclassified frame has the same rows in the same order; per row only `Status` and `PL` change, a code in the status or member table becomes the table's entry and anything else is kept; afterwards no `Status` or `PL` cell is still a code |
| `Sheet.PrepareSound` | src/main.py:90-100 | `Prepare`: every prepared row is clean; the prepared rows are the rows with an offer number, in original order, each cleaned and reclassified |
| `Cards.Due` | src/main.py:117 | the due date is absent exactly when `SOLL-Kontakt:` is missing, and is otherwise the cell's text |
| `Cards.TitleRoundTrip` | src/main.py:111 | `Title`: the title of a clean row splits at "_" back into FIRMA, offer number and project name |
| `Cards.DescriptionTextRoundTrip` | src/main.py:116 | `DescriptionText`: when the first two values hold no line break, the three-line description parses back into its three embedded values, in order |
| `Cards.DescriptionRoundTrip` | src/main.py:112-116 | `Description`: the description holds Leistungsumfang, Angebotsland and Aufstellungsland, in that order, as rendered by the f-string |
| `Cards.MissingCellsReadNan` | src/main.py:112-116 | `Render`: a missing Leistungsumfang, Angebotsland or Aufstellungsland cell reads "nan" in the description; a present one reads as its own text |
| `Cards.PayloadReadsBack` | src/main.py:111-125 | `CardPayload`: the card built from a clean row gives back its title parts, its three description cells, and its `SOLL-Kontakt:` cell as due date (absent exactly when the cell is missing) |
| `Batches.Chunks` | src/main.py:103 | the subsets concatenate back to the rows; there are ceil(N/100) of them; each is non-empty; all but the last have 100 rows |
| `Batches.ChunkPosition` | src/main.py:103 | row p is row p mod 100 of subset p div 100 |
| `Batches.HundredFifty` | src/main.py:103 | 150 rows give two subsets: the first 100 rows and the last 50 |
| `Sync.Attempt` | src/main.py:119-142 | calls are made in order; every call before the last made one succeeded; if fewer calls were made than planned, the last one failed |
| `Sync.PlannedCallsShape` | src/main.py:121-138 | `PlannedCalls`: the card creation comes first; a label call is planned exactly when the status is a key of `label_dict`, a member call exactly when `PL` is a key of `member_dict`; the `Order Volume` lookup always; setting it exactly when the card has that field, and then as the last call; by position the order is creation, label, member, lookup, assignment, and the number of calls counts these cases |
| `Sync.FollowUpsPlanned` | src/main.py:127-138 | `FollowUps`: after the card creation the row plans only its own follow-ups: the label of its status when that is a key of `label_dict`, the member of its `PL` when that is a key of `member_dict`, the read of `Order Volume`, and setting it to Umsatz only when the card has that field; the label comes first |
| `Sync.RowSteps` | src/main.py:119-142 | `RowEvents`: a row's events are calls for that row only; the first creates its card; every later one is a follow-up of the row; every call before the last one made succeeded; once the card exists, a planned label is added next |
| `Sync.OutcomeCases` | src/main.py:119-142 | a row is not created exactly when card creation fails, and fully applied exactly when every planned call succeeds; otherwise the card stays but is only partly applied |
| `Sync.ProcessSubsets` | src/main.py:106-151 | the nested loop produces the trace `SyncEvents` of the subsets |
| `Sync.ProcessSubset` | src/main.py:108-146 | the loop over one subset produces its rows' try-block events, one block per row, in order |
| `Sync.FlatShape` | src/main.py:108-146 | a subset's events are calls for its own rows only, in row order, starting with the first row's card creation and ending with a call for the last row |
| `Sync.FlatEventsOf` | src/main.py:119-142 | in a run of consecutive rows, the events of row i are exactly row i's own block, whatever happened to the other rows |
| `Sync.PausedWithoutSleeps` | src/main.py:106-151 | without its pauses, the trace is the blocks of all rows in order |
| `Sync.PausedOrdered` | src/main.py:106-151 | across subsets, rows are handled one after another, and every call belongs to one of the rows |
| `Sync.PausedSleepCount` | src/main.py:148-151 | there is one pause fewer than there are subsets |
| `Sync.PausedPlacement` | src/main.py:148-151 | each pause lies between one row's last call and the card creation of the next row; that row starts a subset of 100; no pause comes last |
| `Sync.CardAttempted` | src/main.py:119-124 | a row whose events are its try-block has its card creation in the trace |
| `Sync.SyncRows` | src/main.py:106-146 | `SyncEvents`: for any answers of the remote board, without pauses the trace is the rows' try-blocks in order, each row's events are exactly its own try-block, and every row's card creation is attempted |
| `Sync.SyncPauses` | src/main.py:106-151 | `SyncEvents`, the subsets' blocks joined by `Paused`: rows are handled in order, every call is for one of the rows, and there is one pause fewer than there are subsets, each right before the card creation that starts a subset of 100 |
| `Pipeline.ContextLookups` | src/main.py:61-68 | `ContextFor`: the loop's context holds the target list's id; `label_dict` has exactly the board's label names as keys, each holding a board label of that name; `member_dict` has exactly the members' full names as keys, and a full name no later member repeats holds its member's id |
| `Pipeline.Run` | src/main.py:38-151 | a missing board aborts with the board error, and a missing list with the list error, before any card call; otherwise the run's trace is the card loop over the prepared, split rows with the first matching board and list |
| `Pipeline.CompletedRun` | src/main.py:103-151 | every prepared row's card creation is attempted, and each row's events are its own try-block; rows run in order; ceil(N/100) - 1 pauses, all between subsets |
| `Pipeline.HundredFiftyRows` | src/main.py:103-151 | 150 rows give two subsets and exactly one pause, immediately before row 100's card creation |
| `Pipeline.OnlyPauseAtHundred` | src/main.py:148-151 | with fewer than 200 rows, the only place a pause can be is right before row 100's card creation |

## Left out

- Trello client construction and the remote API are not modelled as code. Boards, lists,
  members and labels are `Board` values. Card calls are judged by the `Remote` oracle.
  Failures of `list_boards`, `list_lists`, `get_members` and `get_labels`, which happen
  outside any try-block, are not modelled.
- Spreadsheet loading is not modelled: `os.listdir` file discovery, `pd.read_excel` with its
  sheet, header row and converters, and the column projection. The input is the projected
  ten-column rows.
- argparse, `load_dotenv`, environment variables, the logging setup, every log message
  (progress, per-row success and error), `del`/`gc.collect` and the final banner have no
  behaviour to state. The caught exception is modelled as the end of that row's events.
- `time.sleep(60)` is a `Sleep` event. Wall-clock time is not modelled.
- `Umsatz` is an integer. The float conversion and the float value written to the custom
  field are not modelled.
- The due date is the cell's text. The `str()` formatting of pandas timestamps is not
  modelled.
- Cells are text or missing. A non-text cell is not modelled: for example, a numeric 0 in
  `Projektname`, which has no converter, would not equal `"0"` and would not be replaced.
- Rows are identified by their position among the cleaned rows. The DataFrame index is not
  modelled: the script uses it for nothing but iteration.
- `CleanInPlace` applies the five `.loc` substitutions row by row rather than column by
  column. The result is the same, because each substitution reads and writes one column
  only.
- `src/update.py` is not part of this model. Its only logic is the same board scan
  (`FirstNamed` covers it). The rest is a foreign `get_board(...).list_lists()` call in a
  file that ends there.
- Cards.TitleRoundTrip: reads the three values back only when FIRMA and the offer number
  contain no "_". Otherwise the title itself is ambiguous.
- Cards.DescriptionTextRoundTrip: reads the values back only when the first two contain no
  line break. Otherwise a line break inside a value cannot be told apart from the one that
  ends its line.
- Cards.DescriptionRoundTrip: reads the values back only when the first two contain no line
  break, for the same reason.
- Cards.PayloadReadsBack: makes both of the assumptions above, for the same reasons.
- Cards.MissingCellsReadNan: assumes a present Leistungsumfang or Angebotsland holds no line
  break, for the same reason.
