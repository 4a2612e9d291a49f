# WatChMaL data tools — digitized-hit flattening and merging, modelled in Dafny

This project models the data path that turns WCSim simulation output into
the flat HDF5 layout used for training:

- **The WCSim reader** (`root_utils/root_file_utils.py`, module `RootFileUtils`).
  - A `WCSim` class holds the current event's triggers per PMT stream (20-inch and 3-inch) and a cursor naming the trigger last fetched.
  - Its getters choose the first trigger, and flatten the digitized hits, true hits and trigger table into tagged arrays.
  - `get_event_info_20` summarises trigger 0's tracks, and `get_label` maps a file name to a class.
- **The converter** (`root_utils/np_to_digihit_array_hdf5.py`).
  - Pass 1 (`CountPass`) chooses each event's trigger per stream: the earliest type-0 trigger (`TriggerSelect`). It also counts the rows and hits that size the output datasets.
  - Pass 2 (`HitWriter`) writes one row per event, with its label, event id, energy, position and the two veto flags (`Veto`). It also appends each kept event's hits to the stream's flat hit dataset and records the cursor before them in `event_hits_index_*`.
  - `FlattenSpec` states what both passes compute as functions of the input files.
  - `Ragged` holds the flat-array-plus-offset-index structure that the index datasets form.
- **The merger** (`root_utils/merge_h5.py`, module `MergeH5`).
  - It checks that every file has the first file's dataset and attribute names.
  - It joins the attributes.
  - It concatenates each dataset after a trailing-shape check, and rebases each `event_hits_index_*` by the hit-array lengths of the earlier files.

The 20-inch and 3-inch code paths are written twice in the source and once here, parameterised by `Stream`.

Three behaviours of the code shape the model:

- **Rows.** The converter writes a row for *every* event. An event without a kept trigger still gets its row, and its index entry is equal to the next entry, or to the stream's hit count for the last event.
- **Merger failures.** The merger can fail after writing some datasets. A trailing-shape mismatch in a later dataset stops it after the earlier datasets were written.
- **Missing hit array.** A hit index whose hit array is absent stops the merge after the first file's slice of the index was written.

## Model

| member | source | states |
|---|---|---|
| Common.SqDist | root_utils/np_to_digihit_array_hdf5.py:222-223 | the squared track length is non-negative and zero for a track that does not move |
| Ragged.Offsets | root_utils/np_to_digihit_array_hdf5.py:237-243 | the index has one entry per event row |
| Ragged.Shift | root_utils/merge_h5.py:64 | adding an offset to an index array keeps its length and adds the offset to every entry |
| Ragged.ConcatLength | root_utils/np_to_digihit_array_hdf5.py:239-243 | the flat array is as long as the sum of the per-event hit counts |
| Ragged.ConcatAppend | root_utils/merge_h5.py:59-75 | flattening distributes over joining lists, so concatenating files flattens file by file |
| Ragged.ConcatSnoc | root_utils/np_to_digihit_array_hdf5.py:237-243 | appending one event's hits extends the flat array by them and the index by the old cursor |
| Ragged.ConcatPrefixStep | root_utils/np_to_digihit_array_hdf5.py:239-243 | each loop step appends exactly the next event's hits |
| Ragged.OffsetAt | root_utils/np_to_digihit_array_hdf5.py:237 | index entry i is the number of hits of the events before i |
| Ragged.OffsetsStartAtZero | root_utils/np_to_digihit_array_hdf5.py:237 | the first index entry is 0 |
| Ragged.OffsetStep | root_utils/np_to_digihit_array_hdf5.py:237-243 | consecutive index entries differ by the hit count of the event between them |
| Ragged.OffsetLast | root_utils/np_to_digihit_array_hdf5.py:239-243 | the last event's hits run from its index entry to the end of the flat array |
| Ragged.OffsetsNonDecreasing | root_utils/np_to_digihit_array_hdf5.py:237-243 | the index never decreases |
| Ragged.SliceAt | root_utils/np_to_digihit_array_hdf5.py:240-242 | event i's hits are the slice of the flat array that starts at its index entry |
| Ragged.ElementAt | root_utils/np_to_digihit_array_hdf5.py:240-242 | hit k of event i sits at flat position index[i] + k |
| Ragged.OffsetsAppend | root_utils/merge_h5.py:63-72 | the index of two joined ragged lists is the first index followed by the second rebased by the first flat length |
| TriggerSelect.SelectTrigger | root_utils/np_to_digihit_array_hdf5.py:69-72 | a selected trigger exists in the event and has type 0 |
| TriggerSelect.SelectTriggerSpec | root_utils/np_to_digihit_array_hdf5.py:69-72 | no trigger is selected iff no trigger has type 0; otherwise the selection is the type-0 trigger of smallest time, the lowest index winning ties (argmin) |
| TriggerSelect.NoValidTriggerDrops | root_utils/np_to_digihit_array_hdf5.py:69-71 | an event without a type-0 trigger stores no trigger, adds nothing to the totals and is not kept |
| TriggerSelect.SelectedNothing | root_utils/np_to_digihit_array_hdf5.py:238 | comparing hit tags with an unset (NaN) trigger selects no hit |
| TriggerSelect.SelectedCount | root_utils/np_to_digihit_array_hdf5.py:238-239 | the hits pass 2 selects for trigger t are as many as pass 1 counted with tag t |
| TriggerSelect.SelectedAppend | root_utils/np_to_digihit_array_hdf5.py:238 | selection distributes over concatenation, so hits keep their source order |
| TriggerSelect.SelectedOrigin | root_utils/np_to_digihit_array_hdf5.py:238-242 | every written hit is the time, charge and PMT of a source hit carrying the selected tag |
| TriggerSelect.SelectedPrefix | root_utils/np_to_digihit_array_hdf5.py:238 | the hits a prefix selects are a prefix of what the whole selects, so no more of them |
| TriggerSelect.FilledEqualsKept | root_utils/np_to_digihit_array_hdf5.py:234-243 | an event's hits written in pass 2 equal its contribution to good_hits in pass 1 |
| Veto.SquareLess | root_utils/np_to_digihit_array_hdf5.py:219 | comparing non-negative norms is comparing their squares |
| Veto.RadialTestIsNormTest | root_utils/np_to_digihit_array_hdf5.py:219 | the model's squared radial test is the source's x-z norm > radius test |
| Veto.EndEnergyTestIsNormTest | root_utils/np_to_digihit_array_hdf5.py:222-229 | the model's squared end-energy test is energy - 2 * distance > threshold |
| Veto.EventVetoSpec | root_utils/np_to_digihit_array_hdf5.py:214-221 | veto is true iff some track is above its species' start-energy threshold and stops outside the tank |
| Veto.EventVeto2Spec | root_utils/np_to_digihit_array_hdf5.py:222-232 | veto2 is true iff some track is above its species' end-energy threshold and stops outside the tank |
| Veto.Escapes2ImpliesEscapes | root_utils/np_to_digihit_array_hdf5.py:214-232 | a track that sets veto2 also sets veto |
| Veto.EventVeto2ImpliesEventVeto | root_utils/np_to_digihit_array_hdf5.py:211-232 | veto2 implies veto for every event |
| Veto.StationaryTrackSameContribution | root_utils/np_to_digihit_array_hdf5.py:214-232 | a track whose stop equals its start contributes the same to both flags |
| Veto.UnlistedSpeciesNeverVeto | root_utils/np_to_digihit_array_hdf5.py:214-216 | species other than muon, electron and photon (either sign) never set either flag |
| FlattenSpec.PidLabel | root_utils/np_to_digihit_array_hdf5.py:201-203 | labels are 22 to 0, 11 to 1, 13 to 2, anything else (including negative codes) to -1, and a label names its pid back |
| FlattenSpec.Rows | root_utils/np_to_digihit_array_hdf5.py:194-232 | one output row per input event |
| FlattenSpec.HitLists | root_utils/np_to_digihit_array_hdf5.py:234-254 | one hit list per input event |
| FlattenSpec.EventTriggers | root_utils/np_to_digihit_array_hdf5.py:65-79 | one stored trigger (or NaN) per input event |
| FlattenSpec.RowsSnoc | root_utils/np_to_digihit_array_hdf5.py:194-204 | one more event adds its own row at the end |
| FlattenSpec.HitListsSnoc | root_utils/np_to_digihit_array_hdf5.py:234-243 | one more event adds its own hit list at the end |
| FlattenSpec.RowsAppend | root_utils/np_to_digihit_array_hdf5.py:194-204 | the rows of joined files are the files' rows joined |
| FlattenSpec.HitListsAppend | root_utils/np_to_digihit_array_hdf5.py:234-254 | the hit lists of joined files are the files' hit lists joined |
| FlattenSpec.HitListsPrefix | root_utils/np_to_digihit_array_hdf5.py:234-243 | the first k hit lists depend on the first k events only |
| FlattenSpec.SumsAppend | root_utils/np_to_digihit_array_hdf5.py:54-99 | good_hits, good_rows and the selected-hit counts add up file by file |
| FlattenSpec.GoodHitsStep | root_utils/np_to_digihit_array_hdf5.py:75-78 | good_hits grows by each kept event's hit count and stays within the final total |
| FlattenSpec.GoodWithinTotals | root_utils/np_to_digihit_array_hdf5.py:73-78 | good_hits never exceeds the selected hits and good_rows never exceeds the events |
| FlattenSpec.SizingEqualsFilling | root_utils/np_to_digihit_array_hdf5.py:234-243 | pass 2 writes exactly good_hits hits, the size pass 1 gave the hit datasets |
| FlattenSpec.IndexIsCursor | root_utils/np_to_digihit_array_hdf5.py:237-243 | event_hits_index[i] is the hits kept for the events before i |
| FlattenSpec.IndexShape | root_utils/np_to_digihit_array_hdf5.py:237-243 | the index starts at 0, never decreases, steps by each event's kept hits and ends at the dataset size |
| FlattenSpec.EventHitsAt | root_utils/np_to_digihit_array_hdf5.py:237-242 | event i's hits are the slice named by its index entry |
| FlattenSpec.DroppedEventHasNoHits | root_utils/np_to_digihit_array_hdf5.py:238 | an event that is not kept contributes no hits |
| FlattenSpec.FileRowsAt | root_utils/np_to_digihit_array_hdf5.py:194-196 | event i of file j is written to row offset_j + i, offset_j being the events of the earlier files |
| CountPass.ExpectedCountsAppend | root_utils/np_to_digihit_array_hdf5.py:54-99 | all six counters add up file by file |
| CountPass.CountStream | root_utils/np_to_digihit_array_hdf5.py:61-79 | one stream's loop stores each event's trigger only when kept and accumulates the selected hits, good rows and good hits |
| CountPass.CountFiles | root_utils/np_to_digihit_array_hdf5.py:44-99 | pass 1 reaches the counts of all files' events and stores each file's per-event triggers |
| HitWriter.AppendEvent | root_utils/np_to_digihit_array_hdf5.py:237-243 | an event's index entry is the cursor, its matching hits follow in order, and the cursor advances by their number |
| HitWriter.Picks | root_utils/np_to_digihit_array_hdf5.py:238 | one picked hit list per event |
| HitWriter.StreamHits | root_utils/np_to_digihit_array_hdf5.py:180-188 | one hit list per event of the file |
| HitWriter.PicksStep | root_utils/np_to_digihit_array_hdf5.py:238-243 | one more event extends the written hits by its selection and stays within the whole |
| HitWriter.PicksAreHitLists | root_utils/np_to_digihit_array_hdf5.py:169-172 | selecting with the triggers pass 1 stored yields the events' kept hit lists, good_hits hits in all |
| HitWriter.FillStream | root_utils/np_to_digihit_array_hdf5.py:234-243 | one stream's loop over a file appends every event's picks after the earlier rows and advances the cursor by their total |
| HitWriter.FillRows | root_utils/np_to_digihit_array_hdf5.py:194-232 | the file's events' rows are written at offset onwards, after the earlier rows |
| HitWriter.WriteStream | root_utils/np_to_digihit_array_hdf5.py:234-254 | a stream's datasets hold the hit lists of every event written so far and the cursor grows by the file's good_hits |
| HitWriter.WriteFile | root_utils/np_to_digihit_array_hdf5.py:166-256 | one file extends the rows and both streams' datasets by its events |
| HitWriter.FilesPrefix | root_utils/np_to_digihit_array_hdf5.py:194-256 | the files written so far plus the next stay within the whole input's rows and hits |
| HitWriter.WriteFiles | root_utils/np_to_digihit_array_hdf5.py:159-256 | the pass-2 loop leaves every row written and both streams' datasets holding all events' hit lists |
| HitWriter.Convert | root_utils/np_to_digihit_array_hdf5.py:44-256 | the output rows are one per event, the hit datasets are the kept hits flattened, and each index is the offsets of those hits |
| HitWriter.Filled | root_utils/np_to_digihit_array_hdf5.py:117-157 | datasets sized by pass 1 are exactly filled: the cursors end at the dataset sizes |
| MergeH5.KeyCheckFromSpec | root_utils/merge_h5.py:22-30 | checking from file j passes iff files j.. have the first file's names; a failure names the first such file and whether datasets or attributes differ |
| MergeH5.KeyCheckSpec | root_utils/merge_h5.py:22-30 | the name check passes iff every file has the first file's dataset and attribute names |
| MergeH5.CheckKeys | root_utils/merge_h5.py:22-30 | the check loop returns the first mismatch in input order |
| MergeH5.HStackAt | root_utils/merge_h5.py:31-32 | file j's attribute values sit in the joined attribute after those of the earlier files |
| MergeH5.ShiftRows | root_utils/merge_h5.py:63-70 | rebasing keeps the number of rows |
| MergeH5.FilePart | root_utils/merge_h5.py:63-74 | a file contributes as many rows as it holds |
| MergeH5.Parts | root_utils/merge_h5.py:60-75 | one part per input file |
| MergeH5.RowsBeforeIsLength | root_utils/merge_h5.py:59-75 | the start cursor is the rows of the files before |
| MergeH5.MergedRowsAt | root_utils/merge_h5.py:59-75 | file j's rows land at start.. unchanged, or increased by the earlier files' hit-array rows for a hit index |
| MergeH5.ShapeCheckSpec | root_utils/merge_h5.py:36-41 | the shape check passes iff every file has the first file's trailing shape, else names the first that differs |
| MergeH5.MergedLength | root_utils/merge_h5.py:34-41 | the leading dimension is the merged row count, or the shape error |
| MergeH5.WriteRows | root_utils/merge_h5.py:43-75 | the dataset receives the merged rows; a missing hit array stops it after the first file's slice |
| MergeH5.WriteSlice | root_utils/merge_h5.py:63-74 | a slice write keeps the rows before start and places the part after them |
| MergeH5.H5Out.constructor | root_utils/merge_h5.py:17 | the output file opened with mode 'w' is empty |
| MergeH5.MergeAttrs | root_utils/merge_h5.py:31-32 | every attribute of the first file gets all files' values joined |
| MergeH5.ListedKeysShared | root_utils/merge_h5.py:20-26 | once the names agree, every file holds every dataset of the first file |
| MergeH5.FirstFailure | root_utils/merge_h5.py:33-75 | the first failing dataset name, or none |
| MergeH5.MergeKey | root_utils/merge_h5.py:33-75 | one dataset: the shape error leaves the output unchanged, the missing hit array leaves the partial index, otherwise the merged dataset is added |
| MergeH5.MergedUpToStep | root_utils/merge_h5.py:33-75 | a dataset that merges cleanly adds its merged dataset to the ones before it |
| MergeH5.StopsAt | root_utils/merge_h5.py:33-75 | the first failing dataset, reached after the earlier ones merged, ends the loop with its error and the earlier datasets |
| MergeH5.MergeDatasets | root_utils/merge_h5.py:33-75 | the datasets before the first failure are merged, and that failure is reported |
| MergeH5.Merge | root_utils/merge_h5.py:14-77 | a name mismatch writes nothing; otherwise the attributes are joined and the datasets merged up to the first failure |
| MergeH5.IndexWithinAppend | root_utils/merge_h5.py:63-72 | ordered indexes over adjacent ranges join to an ordered index |
| MergeH5.IndexWithinShift | root_utils/merge_h5.py:63-70 | rebasing an ordered index moves its range by the offset |
| MergeH5.MergedIndexPrefix | root_utils/merge_h5.py:63-72 | the merged index over the first n files is ordered and within their hits |
| MergeH5.MergedIndexOrdered | root_utils/merge_h5.py:63-72 | if each file's index is ordered and points into its hits, so is the merged index into the merged hits |
| MergeH5.HitsBefore | root_utils/merge_h5.py:65-70 | offset_20 / offset_3 is the merged hit rows of the earlier files |
| MergeH5.Column | root_utils/merge_h5.py:64 | an index array is one single-cell row per entry |
| MergeH5.ColumnAppend | root_utils/merge_h5.py:59-75 | joining index columns joins their rows |
| MergeH5.ColumnShift | root_utils/merge_h5.py:63-70 | rebasing the rows is rebasing the entries |
| MergeH5.MergeOfFlattened | root_utils/merge_h5.py:63-72 | the merged index of the first n converted files is the index of their hit lists taken together |
| MergeH5.MergedFlattenedIndex | root_utils/merge_h5.py:63-72 | merging converted files yields the index the converter would write for all their events at once |
| MergeH5.ThreeFileExample | root_utils/merge_h5.py:63-67 | one-event files with 3, 0 and 5 hits merge to the index [0, 3, 3] |
| MergeH5.ThreeFileHits | root_utils/merge_h5.py:59-75 | the merged hit array of those files has 8 rows |
| RootFileUtils.Fetch | root_utils/root_file_utils.py:53-61 | GetTrigger returns the trigger when in range and null otherwise |
| RootFileUtils.Dates | root_utils/root_file_utils.py:68 | one header date per trigger |
| RootFileUtils.ScanSpec | root_utils/root_file_utils.py:64-72 | the running minimum ends at the earliest date below 9999999.0 (first on ties), or stays (0, 9999999.0) |
| RootFileUtils.FirstTriggerSpec | root_utils/root_file_utils.py:63-85 | the first trigger is the earliest-dated one, the lowest index winning ties, and 0 when no date is below 9999999.0 |
| RootFileUtils.TriggerDigiHits | root_utils/root_file_utils.py:168-175 | one output hit per digitized hit of the trigger |
| RootFileUtils.DigiHitLists | root_utils/root_file_utils.py:166-175 | one hit list per trigger |
| RootFileUtils.DigiHitListsPrefix | root_utils/root_file_utils.py:166-175 | the hits of the first n triggers are as many as their digitized hits |
| RootFileUtils.DigitizedHitAt | root_utils/root_file_utils.py:160-209 | the arrays hold every trigger's digitized hits, trigger by trigger in order, hit i of trigger t tagged t with PMT id tube id - 1 (20-inch) or mPMT PMT id - 1 (3-inch) |
| RootFileUtils.DigitizedTagsOrdered | root_utils/root_file_utils.py:166-175 | trigger tags are valid trigger indices and never decrease along the arrays |
| RootFileUtils.SelectOwnTrigger | root_utils/root_file_utils.py:175 | selecting a trigger's own tag keeps all its hits |
| RootFileUtils.SelectOtherTrigger | root_utils/root_file_utils.py:175 | selecting another trigger's tag keeps none of its hits |
| RootFileUtils.SelectedOfPrefix | root_utils/root_file_utils.py:166-175 | among the first n triggers' hits, tag t selects trigger t's hits if t < n and none otherwise |
| RootFileUtils.CountForTrigger | root_utils/root_file_utils.py:166-175 | the converter's hit count for trigger t on these arrays is trigger t's digitized hit count |
| RootFileUtils.SingletonParents | root_utils/root_file_utils.py:221-227 | the parent set has one element iff the hit has photons and they all share one parent, and then it is that parent |
| RootFileUtils.TriggerTrueHits | root_utils/root_file_utils.py:219-230 | one output entry per true hit of the trigger |
| RootFileUtils.CollectParents | root_utils/root_file_utils.py:221-224 | the loop collects the parents of photons totalPe0 .. totalPe0 + totalPe1 - 1 |
| RootFileUtils.TrueHitsOf | root_utils/root_file_utils.py:219-230 | each true hit gives its single parent track or -2, its PMT id, totalPe1 photo-electrons and the trigger index |
| RootFileUtils.DigiHitsOf | root_utils/root_file_utils.py:168-175 | the inner loop appends every digitized hit of the trigger in order, tagged t |
| RootFileUtils.ClampType | root_utils/root_file_utils.py:390-392 | a trigger type above the int32 maximum becomes -1, any other is kept |
| RootFileUtils.Filter | root_utils/root_file_utils.py:113 | a list comprehension keeps no more tracks than it is given |
| RootFileUtils.FilterIndices | root_utils/root_file_utils.py:113 | there is one kept position per kept track |
| RootFileUtils.FilterSpec | root_utils/root_file_utils.py:113 | the kept tracks are the tracks at strictly increasing positions, and a position is kept iff its track passes the test |
| RootFileUtils.FilterMembers | root_utils/root_file_utils.py:113 | a track is in the comprehension iff it is one of `tracks` and passes the test |
| RootFileUtils.FirstFiltered | root_utils/root_file_utils.py:113-121 | the comprehension is non-empty iff some track passes; its first element is the first such track in `tracks` |
| RootFileUtils.SelectionsSpec | root_utils/root_file_utils.py:113-126 | `particles` and `neutrino` are the order-preserving sub-lists of flag 0 and parent type 0 tracks and of flag -1 tracks; membership iff the flags match; `particles[0]` is the first primary track |
| RootFileUtils.EventInfoSpec | root_utils/root_file_utils.py:107-158 | one primary: its pid, start, direction and energy; an e+ e- pair with one code-22 flag -1 track: pid 22, first primary's position, that track's direction and energy; with one code-12 flag -1 track below 0.0001 energy: pid 22, first primary's position, summed momentum and energy; any other event with two or more primaries: pid 0, averaged position, summed momentum and energy; fails (division by zero) iff there is no primary; pid 22 with other than one primary iff one of the two dummy-gamma cases |
| RootFileUtils.ContainsSpec | root_utils/root_file_utils.py:438-444 | the substring test holds iff the pattern occurs at some position |
| RootFileUtils.GetLabelSpec | root_utils/root_file_utils.py:437-449 | "_gamma" gives 0, else "_e" 1, else "_mu" 2, else "_pi0" 3, else the script exits |
| RootFileUtils.LabelFirstMatchExample | root_utils/root_file_utils.py:438-441 | "a_mu_e" is labelled 1 because the "_e" test comes before "_mu" |
| RootFileUtils.WCSim.constructor | root_utils/root_file_utils.py:22-31 | the reader starts with trigger 0 of each stream fetched and both cursors at 0 |
| RootFileUtils.WCSim.GetTrigger | root_utils/root_file_utils.py:53-61 | fetching trigger t sets that stream's trigger and cursor and leaves the other stream alone |
| RootFileUtils.WCSim.GetFirstTrigger | root_utils/root_file_utils.py:63-85 | the returned and remembered trigger is the first trigger of the date scan |
| RootFileUtils.WCSim.GetDigitizedHits | root_utils/root_file_utils.py:160-209 | returns every trigger's digitized hits tagged and in order; the cursor ends on the last trigger |
| RootFileUtils.WCSim.GetTrueHits | root_utils/root_file_utils.py:211-258 | returns every trigger's true hits with their parent track; the cursor ends on the last trigger |
| RootFileUtils.WCSim.GetTriggers | root_utils/root_file_utils.py:384-414 | one date and one clamped type per trigger; the cursor ends on the last trigger |
| RootFileUtils.WCSim.GetEventInfo20 | root_utils/root_file_utils.py:107-158 | trigger 0 of the 20-inch stream is fetched and its tracks summarised, or no trigger 0 is reported |

## Left out

- **Not modelled:**
  - File I/O, `argparse`, the existence check of input files, `git` provenance attributes, timestamps and printing.
  - ROOT and HDF5 themselves.
  - Inputs are values: a converter input file is a sequence of event records; a merger input file is its datasets, attributes and their name lists.
- Float32 and NaN are not modelled. Times, charges and energies are reals. The NaN that marks an event without a kept trigger is `None`.
- Integer widths (int32, int64) are not modelled, except the explicit int32 clamp of trigger types. Types below the int32 minimum are not considered.
- The three hit datasets of a stream (time, charge, PMT) are one array of (time, charge, PMT) triples. They are written together at the same positions.
- The converter's datasets are filled as arrays and returned together, rather than being created empty and written in place in the HDF5 file.
- `angles` (arccos and arctan2 of the direction) are not modelled: they involve transcendental functions.
- `energies` and `positions` are copied per row, without the reshape.
- **Veto norm** (np_to_digihit_array_hdf5.py, lines 219 and 222): the norm is taken with `axis=2` over per-event arrays. The model uses the intended per-track Euclidean norm. The norm comparisons are stated on squares, and the `Veto` lemmas prove the squared tests equal the norm tests.
- **Merge cells and attributes:**
  - Dataset cells are integers, and a row is its cells flattened over the trailing dimensions.
  - Attribute values are sequences of strings.
  - Dtypes are not modelled.
- MergeH5.WriteRows: when the hit array a hit index needs is absent, the partial dataset's cells after the first file's slice are left unspecified; HDF5 fills them with its default fill value.
- **Positions (`get_digitized_hits_*`, `get_true_hits_*`):** the PMT position arrays come from the geometry tree (`geo.GetPMT`), which is not part of this model. The hit arrays are modelled without them.
- **Event info directions:** the direction returned by `get_event_info_20` in the momentum branches is `AlongMomentum(sum)`. The normalisation by the momentum norm is not modelled (and neither is the NaN it gives for a zero sum).
- RootFileUtils.WCSim.GetTrueHits: requires every true hit's photon range to lie within the trigger's photon list. Out of range, ROOT's `At` returns null and the script fails with an attribute error; this error path is not modelled.
- **Reader methods not modelled:**
  - `get_event`: loading the next event and deleting old triggers.
  - `get_truth_info`, `get_hit_photons_*` and `get_tracks`.
  - The `WCSimFile` / `WCSimChain` constructors.
