# A verified model of the vis music-analysis core (fiddle-tunes)

This project models the analysis core of vis, the music-analysis framework of the ELVIS
project, and proves properties of that model. The pieces modelled are:

- **Interval and n-gram statistics** (`experimenting.dfy`, `sorters.dfy`, `statistics.dfy`,
  `sorting.dfy`). These are `IntervalsStatistics` and `IntervalNGramStatistics` of
  `models/experimenting.py`. They count the interval labels and the n-grams of interval
  records, build n-gram windows with the rest "kill switch", and keep the top-X and threshold
  selection. The final sort is modelled with the two comparators `interval_sorter` and
  `ngram_sorter`. `IntervalsLists.perform`'s rows and `ChordsLists`' `remove_rests` are here
  too.
- **The interval indexers** (`interval.dfy`) of `vis/analyzers/indexers/interval.py`. These
  cover label parsing (`key_to_tuple`, `interval_to_int`) and label construction
  (`real_indexer`). They also cover the settings and indexer-function dispatch, the
  enumeration of every pair of parts, the shift-by-one pairing of the horizontal indexer, and
  the `intervalDistance` check.
- **The index cache of a piece** (`indexed_piece.dfy`): `IndexedPiece.add_index` of
  `models/indexed_piece.py`. It resolves each indexer's settings and skips an index already
  cached with equal settings. It adds required indices recursively and imports the score at most
  once. An unknown indexer name is collected and reported after the loop, as the method's
  documentation promises. The code itself raises AttributeError at the first such name (see
  "## Left out").
- **The workflow controller** (`workflow.dfy`): `WorkflowManager` of `workflow.py`. This
  covers its construction, the shared and per-piece settings store, `load` and `run`,
  `_remove_extra_pairs`, `_get_dataframe`, `_run_off_rep`, the `export` pathname and the
  `output` chart token.
- **The LilyPond preparation indexers** (`lilypond.dfy`, `lilypond_legacy.dfy`). These come
  from `vis/analyzers/indexers/lilypond.py` and the older `analyzers/indexers/lilypond.py`.
  They cover the markup wrapper, the settings of both `LilyPondIndexer`s, and the greedy
  duration split of `_fill_space_between_offsets`. They also cover the note-and-rest tiling
  of `_set_durations`.
- **The importer helpers** (`importer.dfy`) of `controllers/importer.py`: the add and remove
  operations on the list of files, the part names of a score and its title.

Shared definitions:

- `wrappers.dfy` holds Option and Result.
- `pystrings.dfy` holds Python's string and integer conversions as the source uses them:
  `int()`, `unicode()`, `split`, `join`, `strip`, `find`, `os.path.basename` and
  `os.path.splitext`.
- `pyvalues.dfy` holds the dynamically typed setting values and Python's truthiness.
- `music21.dfy` holds the fields of a music21 `Interval` that the code reads.

Music21 itself does not appear in the model. The interval between two pitch names is an input
of the model: a function `IntervalOf = (string, string) -> Option<Interval>`, where `None`
stands for music21 raising `PitchException`. In the same way, an indexer's `run()`, the R and
LilyPond processes, path existence and the filtering indexers are parameters of the operations
that call them.

Where the source changes state, the model does too:

- The statistics experiments, `IndexedPiece`, `WorkflowManager`, `IntervalIndexer`, both
  `LilyPondIndexer`s and `Importer` are classes.
- Their methods carry `modifies` clauses and loops with invariants.
- Each method is proved against a specification function. The lemmas beside those functions
  state what the source promises.
- `_set_durations` writes the note durations into an array.

Python's `sorted` with a `cmp` function is stable. The model sorts by stable insertion and
fails as soon as a comparison it makes fails. `Sorting.Consistent` asks only that the
comparison answers and that `a > b` implies `b <= a`, which is all the sorted-permutation
proofs need. The comparators sorted here compare a derived key (a count, `NameCompare` of
the interval names, `Lex` of the n-gram encoding) and so are total preorders. For those the
stable sorted order is unique, so it is the order Python's sort gives. A Python dict's key
order is modelled as first-insertion order.

Where a docstring and the code disagree, the model follows the code:

- The `interval_sorter` docstring examples (`models/experimenting.py:511-514`) contradict its
  comparisons.
- The `_set_durations` docstring places the final note at offset 4.0 where the code keeps
  3.0.
- The `HorizontalIntervalIndexer.run` docstring places each interval at the first note's
  offset. The code uses the second note's offset.
- The `possible_settings` of the vis `LilyPondIndexer` spell `annotation part`, while the
  constructor reads `annotation_part`.
- `add_pieces`' docstring promises an `add_remove_success` signal that the code never sends.

Some branches of the code are modelled although no real input reaches them. `_set_durations`
raises a RuntimeError for an offset followed by an earlier one (`LilyPond.Gap`,
`LilyPond.GapsFit`, `LilyPond.SetDurationsShape`), but a music21 `Part` returns its notes in
offset order, so a real score never takes that branch.

## Model

| member | source | states |
|---|---|---|
| Experimenting.CheckStatSettings | models/experimenting.py:457-470 | a KeyError with the class's message exactly when quality or simple_or_compound (or, for the n-gram experiment, values_of_n) is missing; otherwise the given settings, with topX and threshold defaulting to None, sort_order to 'descending' and sort_by to 'frequency' |
| Experimenting.IntervalsStatistics.Create | models/experimenting.py:455-480 | the constructor fails exactly when the settings check does, with its KeyError; otherwise it keeps the records and the completed settings, and output_format replaces the default displays |
| Experimenting.IntervalsStatistics.AddInterval | models/experimenting.py:485-492 | one more occurrence of the interval: its count goes up by one (from 0 for a new one) and a new key goes last in the key order |
| Experimenting.Label | models/experimenting.py:585-595 | an interval's label: its name or semiSimpleName when quality is set, else its directed generic size, simple or compound; stated through AddEvent and RecordLabelsSounding |
| Experimenting.IntervalsStatistics.AddEvent | models/experimenting.py:580-596 | one event adds nothing when a part rests, else the label its interval has for the quality and size settings; the counts stay the tally of every label added so far; None when music21 cannot read a pitch |
| Experimenting.IntervalsStatistics.AddRecord | models/experimenting.py:580-596 | a record's labels are added event by event; the counts are the tally of every label added so far, or music21 raised |
| Experimenting.RecordLabelsSounding | models/experimenting.py:580-596 | a record contributes exactly one label per event without a rest, in order, each the label of that event's interval |
| Experimenting.RecordLabelsFail | models/experimenting.py:579-583 | once a prefix of a record raises, the whole record raises |
| Experimenting.IntervalLabelsFail | models/experimenting.py:579-583 | once a prefix of the records raises, perform() raises |
| Experimenting.IntervalLabelsStep | models/experimenting.py:579-580 | the labels of one more record are those of the records before it followed by its own |
| Experimenting.RecordLabelsStep | models/experimenting.py:580 | the labels of one more event are those of the events before it followed by its own |
| Experimenting.IntervalsStatistics.Perform | models/experimenting.py:563-646 | perform(): PitchException when music21 raises; otherwise the dictionary is the tally of every label of every record, keys in first-seen order, and the result is the report on those labels sorted by name with interval_sorter; every result pair is (key, its count) |
| Experimenting.IntervalsStatistics.Finish | models/experimenting.py:598-646 | steps (2) to (5) leave the counts alone and give the report on the counted labels, each key paired with its count |
| Experimenting.Selected | models/experimenting.py:598-638 | steps (2) to (4) on the counted labels: the filtered keys after the final sort; stated by SelectionKeys and the Statistics lemmas |
| Experimenting.Report | models/experimenting.py:598-646 | steps (2) to (5): the selected keys each paired with its count, or the error a step raises; stated by ReportCounts, ReportAll and ReportByFrequency |
| Experimenting.Rows | models/experimenting.py:640-643 | step (5) pairs every kept key, in order, with its count |
| Experimenting.SelectionKeys | models/experimenting.py:598-625 | every key the filters and the final sort keep is a label that occurred |
| Experimenting.ReportCounts | models/experimenting.py:640-643 | every reported pair is a label that occurred together with the number of times it occurred, which is at least one |
| Experimenting.ReportAll | models/experimenting.py:623-625 | without topX and threshold, every label that occurred is reported with its count once the final sort succeeds |
| Experimenting.ReportByFrequency | models/experimenting.py:627-634 | sorting by frequency never raises once the filters succeed, and the counts come out ascending for 'ascending' and descending otherwise |
| Experimenting.IntervalNameSort | models/experimenting.py:636-638 | sorting interval labels of one kind by name with interval_sorter succeeds and is in the comparator's order |
| Experimenting.IntervalNGramStatistics.Create | models/experimenting.py:697-724 | as for IntervalsStatistics, with values_of_n required as well and the n-gram message in the KeyError |
| Experimenting.IntervalNGramStatistics.AddNgram | models/experimenting.py:729-736 | one more occurrence of the n-gram: its count goes up by one and a new key goes last in the key order |
| Experimenting.SortedN | models/experimenting.py:826 | sorted(values_of_n): a list or a string sorted by Python 2's cmp, TypeError for anything else; stated by SortedNSpec |
| Experimenting.SortedNSpec | models/experimenting.py:826 | sorted(values_of_n) of any list never raises, is a permutation of the list and is in Python 2's cmp order (None, then numbers with bools and floats by value, then lists, then strings); a list of ints and bools comes out lowest to highest |
| Experimenting.SortedAscending | models/experimenting.py:826 | in the sorted values of n, an earlier value is never larger than a later one |
| Experimenting.WindowUpTo | models/experimenting.py:843-865 | intervals_this_n after the j loop has run up to j: the intervals so far, the kill switch when a later event is missing or has a rest, or music21's exception; stated by WindowIntact and WindowKilled |
| Experimenting.Window | models/experimenting.py:843-865 | the window of the n-gram of this n at start i, the j loop run to max(n, 1); stated by WindowIntact, WindowKilled and WindowStops |
| Experimenting.WindowIntact | models/experimenting.py:843-865 | a window the j loop completes holds the intervals of max(n, 1) consecutive events, the ones after the first without a rest, each the interval music21 gives for that event |
| Experimenting.WindowKilled | models/experimenting.py:851-860 | when music21 does not raise, the kill switch is set exactly when an event the n-gram needs is past the end of the record or has a rest |
| Experimenting.WindowStops | models/experimenting.py:851-866 | once the kill switch is set or music21 raises for some n, the same happens for every larger n |
| Experimenting.BuildWindow | models/experimenting.py:844-865 | the j loop builds the window of the n-gram of this n from start i, or sets the kill switch, or music21 raises |
| Experimenting.NgramsFrom | models/experimenting.py:846-874 | the n loop for one start: the n-grams up to the first killed window, TypeError for an n xrange refuses, or music21's exception; stated by KillSwitchLosesNothing and AddWindows |
| Experimenting.StartNgrams | models/experimenting.py:833-874 | nothing for a start with a rest, otherwise the n loop's n-grams; stated by AddStart |
| Experimenting.RecordNgrams | models/experimenting.py:829-874 | the n-grams of a record's first k starts, in order, or the first exception; stated by RecordNgramsStep and RecordNgramsFail |
| Experimenting.KillSwitchLosesNothing | models/experimenting.py:826-867 | for sorted values of n that xrange() accepts (ints and bools), breaking the n loop at the first killed window gives the same n-grams as trying every n |
| Experimenting.EveryWindowKilled | models/experimenting.py:866-867 | when the window of n is killed, no larger n adds an n-gram |
| Experimenting.RecordNgramsFail | models/experimenting.py:829-874 | once a start of a record raises, the whole record raises |
| Experimenting.NgramLabelsFail | models/experimenting.py:828-874 | once a record raises, perform() raises |
| Experimenting.RecordNgramsStep | models/experimenting.py:829-874 | the n-grams of one more start are those of the earlier starts followed by its own |
| Experimenting.IntervalNGramStatistics.AddWindows | models/experimenting.py:842-874 | with the ngram module supplied (see Findings), the n loop for a start without a rest adds the n-grams of every value of n up to the first killed window, and the counts stay the tally of every n-gram added; a value of n that xrange() refuses raises TypeError once the first interval is built, and PitchException when music21 raises |
| Experimenting.IntervalNGramStatistics.AddWindow | models/experimenting.py:846-874 | one turn of the n loop: the exception that value of n raises, or the kill switch with nothing added, or exactly one more n-gram counted, the one its window gives, ahead of the n-grams of the larger values |
| Experimenting.IntervalNGramStatistics.AddStart | models/experimenting.py:833-874 | with the ngram module supplied, a start with a rest adds nothing; otherwise the n loop's n-grams are added and counted, or its exception is raised |
| Experimenting.IntervalNGramStatistics.AddRecord | models/experimenting.py:829-874 | with the ngram module supplied, every start index of a record in turn; the counts are the tally of the record's n-grams, or the first start that raises ends it with that exception |
| Experimenting.IntervalNGramStatistics.Perform | models/experimenting.py:811-926 | perform() with the ngram module supplied: a TypeError when values_of_n is not a list or a string, otherwise the exception of the first start that raises, otherwise the counts are the tally of every n-gram, keys in first-seen order, and the report sorts names with ngram_sorter (see Findings) |
| Experimenting.IntervalNGramStatistics.AddRecords | models/experimenting.py:828-874 | step (1) from empty counts: the first record that raises ends it with that exception, otherwise the counts are the tally of the n-grams of every record, keys in first-seen order |
| Experimenting.IntervalNGramStatistics.Finish | models/experimenting.py:878-926 | steps (2) to (5) on the counted n-grams, with every result pair (key, its count) |
| Experimenting.NgramNameSortRaises | models/experimenting.py:916-918 | with interval_sorter as the name comparator, as written, sorting the two n-grams 'm3 +P4 M6' and 'M3 -P4 m6' by name raises ValueError |
| Experimenting.TwoLabelsUnsortable | models/experimenting.py:907-918 | two distinct labels that the final comparison cannot order make perform() raise ValueError |
| Experimenting.NgramNameSortCorrected | models/experimenting.py:742-806 | with ngram_sorter as the name comparator, sorting n-gram labels of one kind succeeds and is in order |
| Experimenting.NgramsRaiseNameError | models/experimenting.py:870 | as written, with no ngram module imported, step (1) ends normally exactly when there is no n-gram to count, raises NameError whenever one would be counted, and raises that exception or NameError when counting would raise |
| Experimenting.RecordAsWrittenRaises | models/experimenting.py:829-870 | as written, a record's starts raise NameError at the first completed window, and end normally exactly when the record has no n-gram |
| Experimenting.NameErrorExample | models/experimenting.py:870 | one record of one sounding event with values_of_n [1] raises NameError as written |
| Experimenting.UnigramsCounted | models/experimenting.py:842-872 | with the ngram module supplied, values_of_n [1] counts one n-gram per event of a record without rests, the text of that event's interval, in order |
| Experimenting.NewIntervalsLists | models/experimenting.py:188-197 | IntervalsLists: a KeyError exactly when quality or simple_or_compound is missing; otherwise the records, both settings, and output_format in place of the default displays |
| Experimenting.PairRow | models/experimenting.py:250-281 | the row of an event and the next: the vertical interval or 'Rest & ...', and the lower voice's direction-marked interval or 'N/A'; stated by RestPairRow and HorizontalColumn |
| Experimenting.RecordRows | models/experimenting.py:250-286 | one record's rows, pair by pair, then the last event without a horizontal interval; IndexError for an empty record; stated by RecordRowsShape |
| Experimenting.ListRows | models/experimenting.py:241-288 | the header, then the rows of every record in turn; stated by ListRowsShape and ListRowsFail |
| Experimenting.RecordRowsOf | models/experimenting.py:250-286 | one record's rows pair by pair, then the last event without a horizontal interval; IndexError for an empty record and PitchException when music21 raises |
| Experimenting.PairRowsOf | models/experimenting.py:250-281 | the zip loop makes the row of every pair of neighbouring events in order, and stops at the first pair whose row raises |
| Experimenting.ZipFail | models/experimenting.py:250 | once a pair raises, every longer prefix of the zip raises |
| Experimenting.ListsPerform | models/experimenting.py:241-288 | perform(): the header row, then the rows of every record in turn; the first record that raises ends it with that error |
| Experimenting.ListRowsStep | models/experimenting.py:245 | the rows of one more record are those of the records before it followed by its own |
| Experimenting.ListRowsFail | models/experimenting.py:245 | the first record that raises makes perform() raise the same error |
| Experimenting.RecordRowsShape | models/experimenting.py:250-286 | a record gives one row per event, at that event's offset; every row but the last has a horizontal interval and the last has none |
| Experimenting.PairRowsShape | models/experimenting.py:250-281 | the first k pairs give k rows, at the offsets of their first events, each with a horizontal column |
| Experimenting.ListRowsShape | models/experimenting.py:241-288 | the data is the header followed by exactly one data row per event of every record |
| Experimenting.RestPairRow | models/experimenting.py:263-265 | when the lower note of the first event rests, the row is 'Rest & ' plus the upper note, with 'N/A' as its horizontal interval, and music21 is never asked |
| Experimenting.HorizontalColumn | models/experimenting.py:272-276 | the horizontal column is 'N/A' when the next lower note rests, and otherwise the direction-marked interval of the lower voice |
| Experimenting.FormatterDirection | models/experimenting.py:213-238 | asking for the direction adds a '+' exactly for an ascending interval and changes nothing else |
| Experimenting.RestsRemoved | models/experimenting.py:351-364 | every name of an event but a single 'Rest', each followed by a space; stated by RestsRemovedEmpty and SpacedLength |
| Experimenting.RemoveRests | models/experimenting.py:351-364 | remove_rests: every name of a chord, and every single name but 'Rest', each followed by a space |
| Experimenting.AddChord | models/experimenting.py:359-360 | the inner loop appends every name of a chord followed by a space |
| Experimenting.SpacedLength | models/experimenting.py:359-360 | every name of a chord takes at least one character, so a chord adds nothing only when it is empty |
| Experimenting.RestsRemovedEmpty | models/experimenting.py:377-382 | remove_rests returns '' exactly when every member is a 'Rest' or an empty chord, the case perform() skips |
| Sorters.RemoveSignsUnsigned | models/experimenting.py:523-525 | after the replace loop no '+' or '-' is left |
| Sorters.RemoveSignsIdempotent | models/experimenting.py:523-525 | removing the signs a second time changes nothing |
| Sorters.IntervalSorterIgnoresSigns | models/experimenting.py:520-525 | interval_sorter answers the same with or without the direction signs |
| Sorters.IntervalSorterSelf | models/experimenting.py:534-535 | a label compares equal to itself unless nothing is left of it without signs, when left[0] raises |
| Sorters.TextTail | models/experimenting.py:529-538 | a named label's quality letter is not a digit and its tail is its size; a bare size is given the quality 'P'; the size reads back with int() |
| Sorters.TextInjective | models/experimenting.py:534 | two names of one kind have the same text exactly when they are equal |
| Sorters.QualityCmpRank | models/experimenting.py:540-556 | the quality tie-break orders diminished below minor below perfect or major below augmented |
| Sorters.QualifiedOrder | models/experimenting.py:533-556 | the comparisons give the order of the names: size first, then quality |
| Sorters.CompareNames | models/experimenting.py:527-556 | once the signs are gone, two labels of one kind compare as their names do |
| Sorters.IntervalSorter | models/experimenting.py:497-558 | interval_sorter itself: signs removed, a bare size given the quality 'P', then equal text, the size, the quality; its order is stated by IntervalSorterOrder and its errors by IntervalSorterSelf and UnsignedNotInt |
| Sorters.IntervalSorterOrder | models/experimenting.py:497-558 | interval_sorter on labels of one kind, signs or not, is the comparison of their names by size and then quality |
| Sorters.NameCompareAntisymmetric | models/experimenting.py:533-556 | swapping the arguments negates the order interval_sorter implements |
| Sorters.SmallNamed | models/experimenting.py:533-556 | on one-digit named labels interval_sorter is the comparison of their names |
| Sorters.SmallNumber | models/experimenting.py:527-539 | on one-digit bare sizes, with or without signs, interval_sorter compares the sizes |
| Sorters.IntervalSorterExamples | models/experimenting.py:497-558 | worked values: M3 before P5, m7 after d4, m3 before M3, A4 after P4, 3 before 4, +3 equal to -3, +3 after -2 |
| Sorters.IntervalSorterOnNgrams | models/experimenting.py:536 | on the n-grams 'm3 +P4 M6' and 'M3 -P4 m6' interval_sorter raises both ways round, because int() cannot read what follows the first character |
| Sorters.UnsignedNotInt | models/experimenting.py:536 | when the labels differ and the first one's tail is not an int, the comparison raises |
| Sorters.NotAnInt | models/experimenting.py:536 | a digit, a space and more is not something int() reads |
| Sorters.NgramSorterSelf | models/experimenting.py:742-806 | an n-gram compares equal to itself, or ngram_sorter raises |
| Sorters.SplitNgram | models/experimenting.py:779-785 | a label joined from interval spellings by single spaces is already stripped, and its first space ends the first interval |
| Sorters.NgramSorter | models/experimenting.py:742-806 | ngram_sorter itself: strip, then interval_sorter on the first intervals, a single interval before a longer n-gram, recursing on the rests; its order is stated by NgramSorterOrder |
| Sorters.NgramSorterOrder | models/experimenting.py:742-806 | ngram_sorter on n-grams of one kind is the lexicographic order of their encodings: each interval's flag saying whether more intervals follow, then its size and rank, so a last interval sorts before any interval with more after it ('5' before '3 +2') |
| Sorters.NgramSorterStep | models/experimenting.py:799-806 | with a space on both sides, the first intervals decide unless they tie, and then the rest is compared |
| Sorters.NgramSorterLast | models/experimenting.py:787-797 | a single interval against a single interval is interval_sorter; a single interval is smaller than a longer n-gram |
| Sorters.NgramSorterOnStripped | models/experimenting.py:778-780 | on labels with no surrounding spaces the strip() calls change nothing |
| Sorters.NgramPrefixSmaller | models/experimenting.py:748-749 | an n-gram that starts another is the smaller one |
| Sorters.LexAntisymmetric | models/experimenting.py:742-806 | swapping two n-grams negates their order |
| Sorters.NgramSorterLastExample | models/experimenting.py:770-771 | the docstring's example: '3 -2 3 -2 3' after '3 -2 3' |
| Sorters.IntervalSorterConsistent | models/experimenting.py:636-638 | interval_sorter answers on every pair of interval labels of one kind, so sorting them never raises |
| Sorters.NgramSorterConsistent | models/experimenting.py:742-806 | ngram_sorter answers on every pair of n-gram labels of one kind |
| Statistics.BumpChanges | models/experimenting.py:485-492 | adding an occurrence raises that key's count by one, from 0 for a new key, and leaves every other count alone |
| Statistics.TallyCounts | models/experimenting.py:485-492 | the dictionary's keys are exactly the labels added, and each count is the number of times the label was added |
| Statistics.FirstSeenCounters | models/experimenting.py:485-492 | the key order lists every key of the dictionary exactly once |
| Statistics.TallyAppend | models/experimenting.py:485-492 | counting one more label is one _add_interval call: the count goes up, and the key order grows only for a new label |
| Statistics.FilterAndSort | models/experimenting.py:598-638 | steps (2.1) to (4) and the final sort compute the selection |
| Statistics.FilterKeys | models/experimenting.py:598-625 | steps (2.1) to (4): by descending count, cut at int(topX), then the threshold; without either, every key |
| Statistics.ApplyThreshold | models/experimenting.py:609-622 | step (4): IndexError for an empty list, all keys when the last one already reaches int(threshold), else the new_keys loop |
| Statistics.KeepAtLeast | models/experimenting.py:615-622 | the new_keys loop keeps, in order, the keys whose count reaches the threshold |
| Statistics.AtLeastSpec | models/experimenting.py:615-622 | the keys kept are exactly those whose count reaches the threshold, each at most as often as before |
| Statistics.Threshold | models/experimenting.py:609-622 | step (4): IndexError for no keys, the keys unchanged when the last one reaches the threshold, else those that reach it; stated by ThresholdSpec and ThresholdOnNothing |
| Statistics.ThresholdSpec | models/experimenting.py:609-622 | the threshold step drops only keys below the threshold, and on keys in descending count order it keeps only keys that reach it |
| Statistics.ThresholdOnNothing | models/experimenting.py:613 | with a threshold and no key to look at (no interval found, or topX 0) the step raises IndexError |
| Statistics.Descending | models/experimenting.py:602 | sorting by count with reverse=True gives the keys in descending count order, a permutation of them |
| Statistics.DescendingCounts | models/experimenting.py:602 | in keys sorted by descending count an earlier key never has a smaller count |
| Statistics.ByCountConsistent | models/experimenting.py:602 | comparing keys by count always answers, both ways round, so that sort never raises |
| Statistics.CutTopPrefix | models/experimenting.py:605-607 | the topX cut is a prefix, of at most int(topX) keys |
| Statistics.PrefixSorted | models/experimenting.py:607 | a prefix of keys in descending count order is still in that order |
| Statistics.TopKeys | models/experimenting.py:598-625 | steps (2.1) to (4): all keys without a filter, else the topX cut of the keys by descending count, then the threshold; stated by TopKeysSubset, TopKeysAtMostTopX, TopKeysReachThreshold and TopKeysMostFrequent |
| Statistics.TopKeysSubset | models/experimenting.py:598-625 | the filters only ever drop keys |
| Statistics.TopKeysAtMostTopX | models/experimenting.py:604-607 | with topX set, at most int(topX) keys remain |
| Statistics.TopKeysReachThreshold | models/experimenting.py:609-622 | with a threshold set, every remaining key occurs at least int(threshold) times |
| Statistics.TopKeysMostFrequent | models/experimenting.py:598-622 | with a filter, a dropped key never occurs more often than a kept one |
| Statistics.SelectionKeepsAll | models/experimenting.py:623-638 | without topX and threshold the final sort reports every key once |
| Statistics.SortKeys | models/experimenting.py:627-638 | the final sorted() on the filtered keys, or the error of the filter or of a comparison; stated by SelectionSorted |
| Statistics.SelectionSorted | models/experimenting.py:627-638 | with a comparator that answers on the keys, the final sort succeeds, is in that order and permutes the filtered keys |
| Statistics.FlipConsistent | models/experimenting.py:629-638 | reverse=True keeps a comparator that always answers one that always answers |
| Sorting.Compare | models/experimenting.py:632-634 | the comparison of two counts is -1, 0 or 1, negative exactly when the first is smaller |
| Sorting.Insert | models/experimenting.py:632-638 | one insertion step of sorted() permutes the keys plus the new one |
| Sorting.Sort | models/experimenting.py:632-638 | sorted() either raises or returns a permutation of its input |
| Sorting.InsertSorted | models/experimenting.py:632-638 | inserting into a sorted list with a comparator that answers succeeds and keeps it sorted |
| Sorting.SortSorted | models/experimenting.py:632-638 | with a comparator that answers on the keys, sorted() succeeds and its result is sorted |
| Sorting.SortPermutes | models/experimenting.py:632-638 | sorted() returns a permutation of its input, the same length |
| IntervalIndexers.KeyToTuple | vis/analyzers/indexers/interval.py:60-61 | a successful parse's first integer is the text before the first comma; otherwise the ValueError or IndexError int() and the indexing raise |
| IntervalIndexers.KeyToTupleRoundTrip | vis/analyzers/indexers/interval.py:52-58 | the label 'a,b' of any two integers parses back to (a, b) |
| IntervalIndexers.PairLabelsDiffer | vis/analyzers/indexers/interval.py:306 | two different part combinations never get the same label |
| IntervalIndexers.IntervalToInt | vis/analyzers/indexers/interval.py:95-102 | 'Rest' for a string ending in 't', nan_is for NaN, the AttributeError a non-string number raises, and otherwise an integer between -9 and 9 |
| IntervalIndexers.IntervalToIntLastDigit | vis/analyzers/indexers/interval.py:99-102 | a string ending in a digit gives that digit's value, negated exactly when the string starts with '-' |
| IntervalIndexers.IntervalToIntNoDigit | vis/analyzers/indexers/interval.py:99-102 | a string whose last character is neither a digit nor 't' raises ValueError |
| IntervalIndexers.CompoundIntervalToInt | vis/analyzers/indexers/interval.py:87-88 | the compound interval 'P12' gives 2, as the documentation warns |
| IntervalIndexers.QualityLetters | vis/analyzers/indexers/interval.py:135-139 | the quality string holds only A, M, P, m and d characters and is no longer than the name |
| IntervalIndexers.QualityLettersIdempotent | vis/analyzers/indexers/interval.py:136-138 | filtering the quality characters twice is filtering them once |
| IntervalIndexers.QualityLettersAppend | vis/analyzers/indexers/interval.py:136-138 | the quality characters of a concatenation are those of each part, in order |
| IntervalIndexers.QualityLettersNone | vis/analyzers/indexers/interval.py:136-138 | a name without any quality character gives the empty string |
| IntervalIndexers.RealIndexer | vis/analyzers/indexers/interval.py:124-125 | None exactly when the simultaneity does not have two parts |
| IntervalIndexers.RealIndexerNoQuality | vis/analyzers/indexers/interval.py:132-151 | without quality the label is the direction alone: '-' for a descending interval, else empty |
| IntervalIndexers.RealIndexerQuality | vis/analyzers/indexers/interval.py:132-148 | with quality the label starts with '-' exactly for a descending interval, carries exactly the interval name's quality characters, and ends with the (simple or compound) size, which parses back to that size |
| IntervalIndexers.LabelToInt | vis/analyzers/indexers/interval.py:95-146 | interval_to_int of a simple label with quality is the signed size of the interval |
| IntervalIndexers.ChooseIndexer | vis/analyzers/indexers/interval.py:264-278 | the indexer function __init__ chooses: byTones first, then quality, then simple or compound; what each choice computes is stated by ChooseIndexerFlags |
| IntervalIndexers.ChooseIndexerFlags | vis/analyzers/indexers/interval.py:264-278 | the chosen indexer function reduces to simple intervals exactly for 'simple', measures tones exactly when byTones is set, and shows quality exactly when quality is set and byTones is not |
| IntervalIndexers.DefaultIndexer | vis/analyzers/indexers/interval.py:242-278 | with no settings the indexer is the compound, no-quality one |
| IntervalIndexers.Labels | vis/analyzers/indexers/interval.py:306 | one label per combination, each 'left,right' |
| IntervalIndexers.PairsUpToMembers | vis/analyzers/indexers/interval.py:303-305 | after the first k outer iterations the combinations are exactly the pairs left < right < n with left < k |
| IntervalIndexers.PairsUpToAscending | vis/analyzers/indexers/interval.py:303-305 | the combinations come in lexicographic order, with no repeats |
| IntervalIndexers.PairsUpToCount | vis/analyzers/indexers/interval.py:303-305 | after k outer iterations there are k(2n-k-1)/2 combinations |
| IntervalIndexers.AllPairs | vis/analyzers/indexers/interval.py:300-306 | the combinations [left, right] the nested loops of run() make, left ascending and then right; stated by AllPairsSpec and the PairsUpTo lemmas |
| IntervalIndexers.AllPairsSpec | vis/analyzers/indexers/interval.py:300-306 | the full list holds every pair of distinct parts exactly once, in lexicographic order, n(n-1)/2 of them, with pairwise distinct labels |
| IntervalIndexers.IntervalIndexer.constructor | vis/analyzers/indexers/interval.py:233-278 | the three settings, each the given value or its default, and the indexer function they choose |
| IntervalIndexers.IntervalIndexer.Run | vis/analyzers/indexers/interval.py:280-313 | the nested loops produce exactly the full list of part combinations and their labels |
| IntervalIndexers.AddRow | vis/analyzers/indexers/interval.py:304-306 | the inner loop, for one left part, appends the pairs (left, right) for every later part right in increasing order, and keeps each label the "left,right" string of its pair |
| IntervalIndexers.IntervalIndexer.HorizontalRun | vis/analyzers/indexers/interval.py:335-381 | the score becomes every part without its last event, at the next event's offset, followed by every part without its first event; part x is paired with n + x and labelled x; the settings stay |
| IntervalIndexers.HorizontalPairing | vis/analyzers/indexers/interval.py:363-372 | each pair the horizontal run sets up lines up a part's event j with its event j + 1, at the offset of event j + 1 |
| IntervalIndexers.IntervalDistance | vis/analyzers/indexers/interval.py:389-394 | the intervalDistance setting is accepted exactly when it is given and not smaller than 0.001; otherwise a RuntimeError |
| IntervalIndexers.AcceptedDistance | vis/analyzers/indexers/interval.py:391-394 | an accepted real distance is at least 0.001 and an accepted integer at least 1; None and False are never accepted |
| IntervalIndexers.NonNumericDistance | vis/analyzers/indexers/interval.py:391 | a string, a list or True passes the check, because Python 2 never finds it below 0.001, and is kept as the distance |
| IntervalIndexers.NewVariableHorizontal | vis/analyzers/indexers/interval.py:385-394 | the constructor fails exactly when the distance is refused, with that RuntimeError; otherwise the new indexer has simple_or_compound, quality and byTones, each given or defaulted as IntervalIndexer's constructor resolves them, the indexer function those three choose, and the accepted distance |
| IndexedPieces.Resolve | models/indexed_piece.py:228-241 | for every possible setting, the given value, else the default, else the indexer is spoiled; stated by ResolveSpec, ResolveSettings and ResolveSpoiled |
| IndexedPieces.ResolveSpec | models/indexed_piece.py:228-241 | the settings resolve exactly when every possible setting is given or has a default; then they hold exactly the possible settings, each the given value, else the default |
| IndexedPieces.ResolveSettings | models/indexed_piece.py:228-238 | the loop over possible_settings computes the resolved settings, or 'spoiled' |
| IndexedPieces.ResolveSpoiled | models/indexed_piece.py:236-238 | once a prefix of the possible settings is spoiled, so are all of them, which is what makes the break sound |
| IndexedPieces.Outcome | models/indexed_piece.py:278-286 | the RuntimeError add_index ends with: unknown indexers first, then indexers missing settings, else none; stated by OutcomeNamesSpoiled |
| IndexedPieces.OutcomeNamesSpoiled | models/indexed_piece.py:283-286 | with every indexer importable, a spoiled indexer makes add_index raise a RuntimeError whose message names it |
| IndexedPieces.OutcomeAsWrittenNamesNothing | models/indexed_piece.py:285 | the message as written prints missing_indexers, which is then empty: it is the prefix followed by '[]' and names no spoiled indexer |
| IndexedPieces.NamedInMessage | models/indexed_piece.py:281-285 | unicode() of a list of names quotes every one of them |
| IndexedPieces.ReprItemsNames | models/indexed_piece.py:281-285 | the items of unicode() of a list contain every quoted name |
| IndexedPieces.IndexedPiece.constructor | models/indexed_piece.py:86-89 | the metadata holds the pathname alone and the cache is empty |
| IndexedPieces.IndexedPiece.AddIndex | models/indexed_piece.py:189-286 | a string request is a one-element list; at most one score import; when every prerequisite is healthy the error is exactly the unknown-indexers error, else the missing-settings error, else none; every known indexer whose settings resolve is cached with those settings (and its prerequisites), nothing cached is lost, every newly cached index is a requested indexer or one of the prerequisites it needs, every newly stored index, under a new name or one already cached, is stored under the settings its indexer resolves from which_settings, and each cached index is run()'s result; an unknown name follows the documentation, see "## Left out" |
| IndexedPieces.IndexedPiece.RunEach | models/indexed_piece.py:212-277 | the loop over the requested indexers collects the unknown and the spoiled ones in request order and caches every other one, adding nothing but those indexers and their prerequisites |
| IndexedPieces.IndexedPiece.AddOne | models/indexed_piece.py:213-273 | one iteration: not found exactly for an unknown name, spoiled exactly when its settings do not resolve, skipped exactly when the same settings are already cached, else run and stored; when skipped nothing changes; an index it stores is under the settings the name resolves (the not-found step is the documented one, see "## Left out") |
| IndexedPieces.IndexedPiece.AddRequired | models/indexed_piece.py:261-265 | an indexer that does not need the score first has every required index in the cache, and nothing is added but its required indices and theirs |
| IndexedPieces.IndexedPiece.AddMissing | models/indexed_piece.py:263-265 | the recursive add_index of a missing prerequisite caches it when it is healthy, adding nothing but it and what it needs |
| IndexedPieces.OnlyNeededRequired | models/indexed_piece.py:261-265 | what is added on behalf of an indexer's required indices is needed by that indexer |
| IndexedPieces.MissingStep | models/indexed_piece.py:221-241 | each iteration appends the name to missing_indexers exactly when it is unknown, and to missing_settings exactly when its settings are spoiled |
| IndexedPieces.DoneGrows | models/indexed_piece.py:243-273 | an index once cached stays cached as the cache grows |
| IndexedPieces.CachedDone | models/indexed_piece.py:243-251 | an index found with the same settings counts as done |
| IndexedPieces.Store | models/indexed_piece.py:271-273 | storing run()'s result under the settings keeps the cache consistent and only adds to it |
| Workflow.KeptSpec | workflow.py:85-90 | the constructor keeps exactly the pathname and IndexedPiece arguments, in order, and nothing else |
| Workflow.WorkflowManager.constructor | workflow.py:83-107 | one piece per kept argument (a new IndexedPiece holding the pathname, or the given piece itself), the per-piece defaults for every piece, the shared defaults, no result, no previous experiment, not loaded |
| Workflow.Setting | workflow.py:794-814 | settings() on one field: a shared field read or written, a per-piece field read or written at an index, or the error raised; stated by SettingKeepsFields, SetThenGet, BroadcastThenGet and SettingErrors |
| Workflow.SettingKeepsFields | workflow.py:794-814 | no settings() call adds or removes a field or a piece, and a read changes nothing |
| Workflow.SharedIgnoresIndex | workflow.py:794-798 | a shared setting reads and writes the same whatever index is given |
| Workflow.SetThenGet | workflow.py:805-814 | writing a per-piece field and reading it back gives the value stored (None for an offset interval of 0); the other pieces keep theirs |
| Workflow.BroadcastThenGet | workflow.py:799-804 | a write with no index reaches every piece |
| Workflow.SettingErrors | workflow.py:799-808 | ValueError for no index and no value, IndexError for an index out of range, AttributeError for an unknown field |
| Workflow.WorkflowManager.Settings | workflow.py:794-814 | settings(index, field, value) returns what Setting says and leaves the settings as Setting says; everything else is unchanged |
| Workflow.WorkflowManager.Broadcast | workflow.py:799-804 | calling settings(i, field, value) on each piece in turn gives the same result and store as the one-step write to every piece, stopping at the first AttributeError |
| Workflow.Above | workflow.py:575-576 | the rows whose value is above the threshold, in order; its length bound is its own ensures and its contents are stated by AboveSpec |
| Workflow.AboveSpec | workflow.py:575-576 | the threshold filter keeps exactly the rows strictly above the threshold, in their order |
| Workflow.GetDataframe | workflow.py:557-581 | the frame has the given column name and its rows are the first rows of the result after the threshold filter (every one above the threshold): all of them without top_x, and otherwise exactly min(top_x, their number) of them, a negative top_x dropping that many from the end as a Python slice does |
| Workflow.ThresholdBeforeTop | workflow.py:574-580 | the threshold is applied before top_x: counts 10 down to 6 with threshold 7 and top 5 leave 10, 9 and 8 |
| Workflow.ExportPath | workflow.py:696-699 | the export pathname: the default path for None, the extension appended unless the pathname ends with it; stated by ExportPathSpec |
| Workflow.ExportPathSpec | workflow.py:696-699 | without a pathname the default 'test_output/no_path' is used; the pathname written ends with the format's extension, is the given one exactly when that already ended with it and otherwise the given one followed by the extension, and a second export changes nothing |
| Workflow.WorkflowManager.Export | workflow.py:679-702 | RuntimeError before run() and for an unknown format; otherwise success, with the export pathname of the given (or default) pathname and the format's extension, and the table _get_dataframe('data', top_x, threshold) |
| Workflow.OutputToken | workflow.py:627-633 | the chart token: 'int' after intervals, str(n) after n-grams, else 'things'; stated by NgramToken |
| Workflow.NgramToken | workflow.py:627-633 | the chart token is 'int' after intervals, unicode(n) after n-grams (an int n reads back as n), and 'things' otherwise |
| Workflow.WorkflowManager.Output | workflow.py:610-643 | NotImplementedError for 'LilyPond', RuntimeError for other instructions and before run(); for 'R histogram' the Rscript command line (chart script, Stata and PNG pathnames, the chart token with unicode() of the setting n, the number of pieces) and the PNG pathname, or the R failure as a RuntimeError |
| Workflow.NgramsReachable | workflow.py:199-204 | an 'interval n-grams' instruction is long enough and does not start with 'intervals', so testing 'intervals' first is safe |
| Workflow.WorkflowManager.Load | workflow.py:158-169 | (corrected, see Findings) 'pieces' marks the pieces loaded and leaves the pieces that import as they are, in order, followed by the pieces of every Opus, Opus by Opus; 'hdf5', 'stata' and 'pickle' raise NotImplementedError and anything else RuntimeError, leaving every field alone; the settings are never changed |
| Workflow.WorkflowManager.LoadPieces | workflow.py:159-164 | the loop over the original pieces, removing each Opus from where it now is and appending its pieces, ends with the pieces that import as they are followed by the pieces of every Opus |
| Workflow.RemoveAtSpec | workflow.py:164 | `s[:i] + s[i + 1:]` keeps the elements before i and moves the later ones down by one, and is s itself once i is past its end |
| Workflow.SinglesSpec | workflow.py:159-162 | the pieces kept in place are exactly the pieces that do not import as an Opus |
| Workflow.OpusPartsSpec | workflow.py:163-164 | the appended pieces are exactly the pieces of the Opus files |
| Workflow.LoadStateStep | workflow.py:159-164 | a turn of the loop on a single piece changes nothing; on an Opus it removes the Opus at the position just after the singles before it and appends its pieces |
| Workflow.LoadStateEnds | workflow.py:159-164 | before the loop the pieces are the original ones, after it the singles followed by the Opus parts |
| Workflow.LoadWithOneOpus | workflow.py:159-164 | as written, with its index from the original list, the loop still gives the intended pieces when at most one file is an Opus |
| Workflow.TwoOpusFiles | workflow.py:159-164 | as written, with two files that each import as an Opus, the second removal takes the first Opus's piece and leaves the second Opus file in the list: [2, 4] instead of [3, 4] |
| Workflow.WorkflowManager.Run | workflow.py:198-215 | RuntimeError before load(), for an instruction starting with neither name, and with the state unchanged; otherwise the experiment chosen by prefix, stored as the result and as the previous experiment |
| Workflow.PairKeysOf | workflow.py:542-545 | the first loop collects the "a,b" key of each two-element combination, in order |
| Workflow.PairKeysParse | workflow.py:542-545 | each such key parses back, with key_to_tuple, to a requested two-element combination |
| Workflow.PairKeysCover | workflow.py:542-545 | every two-element combination has its key among the pair keys |
| Workflow.KeysToDelete | workflow.py:549-552 | the keys to delete are exactly the keys of vert_ints that are not pair keys |
| Workflow.DeleteKeys | workflow.py:553-555 | deleting them leaves the entries with every other key, values unchanged |
| Workflow.RemoveExtraPairs | workflow.py:542-555 | _remove_extra_pairs returns {} without a two-element combination, and otherwise vert_ints restricted to the pair keys |
| Workflow.RemainingSpec | workflow.py:526-555 | every remaining key names a requested pair and keeps its value, and every requested pair that vert_ints holds remains |
| Workflow.Zip | workflow.py:499 | the dict rebuilt from the keys and the filtered parts has those keys, in order, with the first parts as values |
| Workflow.ZipNamesValues | workflow.py:490-499 | taking a dict apart into keys and values and rebuilding it gives it back, so a dict no filter touches comes back unchanged |
| Workflow.WorkflowManager.RunOffRep | workflow.py:488-500 | succeeds exactly when the index is in range and, for a dict, the filters leave at least one part per key; then a list becomes the offset filter's parts (when the offset interval is set) passed through the repeat filter (when filter repeats is True), and a dict keeps its keys in order with the filtered parts as values; IndexError otherwise; so_far unchanged when neither filter applies |
| LilyPond.AnnotationFunc | vis/analyzers/indexers/lilypond.py:43-57 | the markup command starts with `_\markup{ "`, ends with `" }` and holds exactly unicode() of the object between them: the digits of an int, a string itself, the parameter show's text of a float or a list |
| LilyPond.EachPart | vis/analyzers/indexers/lilypond.py:229 | one combination per part, [x] for part x |
| LilyPond.EachPartCovers | vis/analyzers/indexers/lilypond.py:274 | the combinations, laid end to end, are the parts 0 to n-1 in order: every part is analysed once, alone |
| LilyPond.AsList | vis/analyzers/indexers/lilypond.py:154-155 | a list is kept as it is, anything else becomes the one-element list holding it |
| LilyPond.Configure | vis/analyzers/indexers/lilypond.py:137-157 | the constructor raises the no-pathname RuntimeError exactly when run_lilypond is True and no output_pathname is given; otherwise it keeps the three settings, the annotation part as None or a list |
| LilyPond.RunNeedsPathname | vis/analyzers/indexers/lilypond.py:140-147 | a kept true run_lilypond was given together with an output_pathname, which is kept as given |
| LilyPond.DefaultSettings | vis/analyzers/indexers/lilypond.py:113 | no settings, or an empty dictionary, give the default settings |
| LilyPond.OtherKeysIgnored | vis/analyzers/indexers/lilypond.py:137-157 | a setting other than the three is ignored |
| LilyPond.LilyPondIndexer.New | vis/analyzers/indexers/lilypond.py:137-157 | the constructor fails exactly as the settings do; otherwise the new indexer holds the score and exactly those settings |
| LilyPond.FirstBelow | vis/analyzers/indexers/lilypond.py:338-340 | the first listed duration below the remainder is the largest one below it, and there is none exactly when every listed duration is at least the remainder |
| LilyPond.HighestValidQl | vis/analyzers/indexers/lilypond.py:333-340 | a listed remainder is returned itself; otherwise the largest listed duration below it; nothing exactly for a negative remainder |
| LilyPond.Solver | vis/analyzers/indexers/lilypond.py:347-366 | the solver succeeds exactly for a remainder of at least 0, with quarter lengths whose sum is the remainder; otherwise the 'Impossible quarterLength remaining' RuntimeError |
| LilyPond.Split | vis/analyzers/indexers/lilypond.py:347-362 | the shape of the solver's answer: listed lengths of at least the shortest, none above 2 but a whole note, not increasing, the last possibly a remainder; SolverSplit proves the solver's answers have it |
| LilyPond.SolverSplit | vis/analyzers/indexers/lilypond.py:347-362 | the solution is non-increasing, every value but a final sub-256th is a whole note or a listed duration, and the first value is at most the remainder |
| LilyPond.GreedyHalf | vis/analyzers/indexers/lilypond.py:355-360 | below a whole note, what is left after the chosen duration is shorter than it, so no dotted value is ever used |
| LilyPond.FillSpace | vis/analyzers/indexers/lilypond.py:368-372 | the durations between two offsets exist exactly when the start is not after the end; they sum to the distance |
| LilyPond.FillSpaceSplit | vis/analyzers/indexers/lilypond.py:368-372 | the durations between two offsets are non-increasing whole notes and listed values |
| LilyPond.FillSpaceSingle | vis/analyzers/indexers/lilypond.py:347-357 | a distance that is a whole note, a listed duration or shorter than a 256th is one value |
| LilyPond.FillSpaceLong | vis/analyzers/indexers/lilypond.py:361-362 | a distance longer than a whole note starts with a whole note |
| LilyPond.FillSpaceExample | vis/analyzers/indexers/lilypond.py:324-325 | three beats are a half note and a quarter note, four beats one whole note |
| LilyPond.Gap | vis/analyzers/indexers/lilypond.py:402-407 | the durations after note i fill the distance to the next offset, or are [1.0] for the last note; they fail exactly when the next offset comes earlier |
| LilyPond.Block | vis/analyzers/indexers/lilypond.py:408-416 | one note at its offset with its first length, then one rest per further length; stated by BlockShape and RestsMeet |
| LilyPond.BlockShape | vis/analyzers/indexers/lilypond.py:408-416 | each note becomes a note of the first duration at its own offset followed by contiguous rests of the other durations, ending at its offset plus their sum |
| LilyPond.RestsMeet | vis/analyzers/indexers/lilypond.py:415-416 | each inserted rest starts where the one before it ends |
| LilyPond.GapsFit | vis/analyzers/indexers/lilypond.py:401-407 | the durations for the first n notes exist exactly when their offsets do not decrease, and each fits its gap |
| LilyPond.GapsSucceed | vis/analyzers/indexers/lilypond.py:401-407 | the loop over the first n notes raises exactly when one of their offsets is followed by an earlier one |
| LilyPond.GapsStop | vis/analyzers/indexers/lilypond.py:401-407 | the first failure is the error of the whole loop |
| LilyPond.Layout | vis/analyzers/indexers/lilypond.py:399-416 | each note followed by the rests of its gap, in note order; stated by LayoutShape and SetDurationsShape |
| LilyPond.LayoutShape | vis/analyzers/indexers/lilypond.py:399-416 | the new part is contiguous, keeps every note at its offset in order, and ends one beat after the last note |
| LilyPond.SetDurationsShape | vis/analyzers/indexers/lilypond.py:399-416 | _set_durations succeeds exactly for non-decreasing offsets, and its part then has the shape above |
| LilyPond.TwoNoteGaps | vis/analyzers/indexers/lilypond.py:399-416 | two notes give the first note's block over the gap and the last note with length 1.0 |
| LilyPond.TilingWholeNote | vis/analyzers/indexers/lilypond.py:391-392 | notes at 0.0 and 4.0 become a whole note and a quarter note |
| LilyPond.TilingWithRest | vis/analyzers/indexers/lilypond.py:394-397 | notes at 0.0 and 3.0 become a half note, a quarter rest at 2.0 and the note at 3.0 |
| LilyPond.SetDurations | vis/analyzers/indexers/lilypond.py:399-416 | the loop computes the part above, and each note's duration array entry is the first duration of its block; when a later offset comes earlier, the RuntimeError of the first such note, whose predecessors already hold their durations while the later entries are untouched |
| LilyPond.PlaceBlock | vis/analyzers/indexers/lilypond.py:408-416 | one iteration's notes and rests are that note's block |
| LilyPond.NextGap | vis/analyzers/indexers/lilypond.py:402-407 | one iteration's durations are that note's gap |
| LegacyLilyPond.Configure | analyzers/indexers/lilypond.py:111-124 | a missing dictionary is a TypeError; the no-pathname RuntimeError exactly when run_lilypond is True and output_pathname absent; otherwise exactly run_lilypond, True only when given as True, and output_pathname as given or None |
| LegacyLilyPond.AgreesWithVis | analyzers/indexers/lilypond.py:111-124 | on a dictionary whose run_lilypond is a boolean, the older indexer accepts exactly what the newer one accepts and keeps the same two settings |
| LegacyLilyPond.LilyPondIndexer.New | analyzers/indexers/lilypond.py:111-124 | the constructor fails exactly as the settings do; otherwise the new indexer holds the score and exactly those settings |
| LegacyLilyPond.LilyPondIndexer.Combinations | analyzers/indexers/lilypond.py:146 | one combination per part, [x] for part x |
| Importer.Select | controllers/importer.py:123-146 | each filtering pass keeps exactly the paths that pass its test (or fail it), in order |
| Importer.Messages | controllers/importer.py:128 | one error message per rejected path, the prefix followed by the path |
| Importer.Accepted | controllers/importer.py:120-164 | the paths add_pieces appends: the existing non-directories not yet listed, in order; stated by AcceptedMembers |
| Importer.AcceptedMembers | controllers/importer.py:120-164 | the paths add_pieces lists are exactly the given ones that exist, are not directories and were not already listed |
| Importer.NoneSelected | controllers/importer.py:149-150 | a pass keeps nothing exactly when no path passes its test |
| Importer.AddErrors | controllers/importer.py:120-164 | the messages add_pieces emits: every missing path, then every file already listed; stated by AddErrorFree and Messages |
| Importer.AddErrorFree | controllers/importer.py:120-164 | add_pieces reports no error exactly when every path exists and each file among them was not already listed |
| Importer.AddPiecesDuplicates | controllers/importer.py:140-146 | a file given twice in one call is listed twice, without an error: the duplicate test looks only at the list as it was before the call |
| Importer.Importer.constructor | controllers/importer.py:79-90 | a new importer has an empty list of files and has emitted nothing |
| Importer.Importer.AddPieces | controllers/importer.py:120-164 | the list grows by exactly the accepted paths, in order; one error message per missing path and per file already listed; the result is True exactly when there was none |
| Importer.Existing | controllers/importer.py:123-129 | the existing paths, in order, and the missing ones |
| Importer.NonDirectories | controllers/importer.py:132-137 | the paths that are not directories, in order |
| Importer.Unlisted | controllers/importer.py:140-146 | the paths not on the list, in order, and those already on it |
| Importer.IndexOf | controllers/importer.py:191 | isPresent finds the first position of a path, and nothing exactly when it is absent |
| Importer.RemoveFirst | controllers/importer.py:191-194 | removing a path deletes one occurrence of it, and changes nothing when it is absent |
| Importer.RemoveEach | controllers/importer.py:188-194 | the list after removing the first occurrence of each path in turn; stated by RemoveEachCounts and RemoveEachStep |
| Importer.RemoveEachCounts | controllers/importer.py:188-194 | remove_pieces takes away one occurrence of every listed path it is given, and nothing else |
| Importer.RemoveEachStep | controllers/importer.py:188-194 | each iteration removes the next path from what the earlier ones left |
| Importer.Importer.RemovePieces | controllers/importer.py:185-198 | a single string is one path; every path is removed once, the success signal is True and nothing else changes |
| Importer.Importer.RemoveOne | controllers/importer.py:191-194 | one path is removed from the list, once |
| Importer.PartLabel | controllers/importer.py:369 | 'Part ' followed by the position counted from one; PartLabelNotNumber states that int() refuses it |
| Importer.PartLabelNotNumber | controllers/importer.py:369 | a 'Part n' label never parses as an integer |
| Importer.PyIntErrors | controllers/importer.py:366-371 | int() fails with ValueError or TypeError, the TypeError exactly for None and lists, which the except clause does not catch |
| Importer.Relabel | controllers/importer.py:365-371 | one turn of the second loop: a name int() accepts becomes 'Part i+1', a ValueError keeps the name, any other error propagates; stated by RelabelledSpec |
| Importer.Relabelled | controllers/importer.py:365-371 | relabelling keeps the number of names |
| Importer.RelabelledSpec | controllers/importer.py:365-371 | relabelling fails exactly when a name int() cannot take without a TypeError; otherwise each name that is a number becomes 'Part i+1' and every other name is kept |
| Importer.PartNamesSpec | controllers/importer.py:353-373 | _find_part_names gives one name per part: the instrument's non-empty part name or the part id, with numbers replaced by 'Part i+1', so no name is a number |
| Importer.RelabelledNoNumbers | controllers/importer.py:365-371 | after relabelling no name parses as an integer |
| Importer.RelabelledStops | controllers/importer.py:365-371 | the first TypeError ends the loop and is the error of the whole call |
| Importer.FindPartNames | controllers/importer.py:347-373 | the method computes the part names above |
| Importer.RawName | controllers/importer.py:356-361 | a part's first name: its instrument name when there is one and it is not empty, else the part id; stated by FirstNames and PartNamesSpec |
| Importer.FirstNames | controllers/importer.py:356-361 | the first loop takes each part's raw name, in part order |
| Importer.RelabelNumbers | controllers/importer.py:365-371 | the second loop computes the relabelled names |
| Importer.RelabelAt | controllers/importer.py:366-371 | one pass of the second loop extends the relabelling to the name at that index: renamed, kept, or the error int() raises |
| Importer.PieceTitle | controllers/importer.py:383-397 | the title is a prefix of the metadata title or, without metadata, of the file's base name, which holds no '/'; when that name's last '.' follows a non-dot character with no '/' between them, the title is exactly the name up to that '.' |
| Importer.PieceTitleCutsExtension | controllers/importer.py:395 | what the title cuts off is the last extension, a '.' and a tail without another '.' or '/'; and a name with such an extension after a non-dot character loses exactly that extension |
| Importer.PieceTitleExample | controllers/importer.py:387-395 | 'scores/bach.xml' without metadata is titled 'bach' |
| PyStrings.ParseIntToString | vis/analyzers/indexers/interval.py:61 | int() reads back exactly the integer unicode() writes |
| PyStrings.SplitJoin | vis/analyzers/indexers/interval.py:60 | splitting at a separator gives back parts that were joined with it, when none of them contains it |
| PyStrings.JoinSplit | vis/analyzers/indexers/interval.py:60 | joining the pieces of a split with the separator gives back the string |
| PyStrings.LastCharsEndsWith | vis/analyzers/indexers/interval.py:95-102 | the last k characters equal a k-character string exactly when the string ends with it |
| PyStrings.Basename | controllers/importer.py:390 | path.basename: a suffix of the path without '/', preceded by a '/' when it is not the whole path |
| PyStrings.SplitExtRoot | controllers/importer.py:395 | the root path.splitext keeps is a prefix of the path; what it cuts off starts with the last '.', holds no '/', and the base name does not consist of dots up to it; conversely, when the last '.' of the path follows a non-dot character with no '/' between them, the root is exactly the path up to that '.' |
| PyValues.PyInt | controllers/importer.py:366-371 | int() of an integer is that integer, of None or a list a TypeError |
| PyValues.Str | vis/analyzers/indexers/lilypond.py:57 | unicode(v): the text of an int reads back as that int with int(), a string is itself, and a float or a list is rendered by the parameter show |
| PyValues.Py2Cmp | models/experimenting.py:826 | Python 2's cmp(): a value of a lower type rank (None, then numbers, then lists, then strings) is less than one of a higher rank, and two numbers, bools and floats included, compare by their numeric value |
| PyValues.Py2CmpAntisymmetric | models/experimenting.py:826 | swapping the arguments of cmp() negates the answer, so sorted() on any list of settings finds a consistent order |

## Left out

- music21: pitch and interval computation, chords, `semiSimpleName` and the `generic` fields are inputs of the model, not computed, because music21 is a foreign library. A score's metadata title is a string or absent (`Importer.PieceTitle`). A `Metadata` object whose title is None, for which `path.splitext(None)` at `controllers/importer.py:395` raises AttributeError, is not represented.
- pandas: Series are pairs of sequences (offsets, values) and DataFrames the columns the code reads. Sorting inside pandas, `make_return`, `AggregatedPieces` and `_run_freq_agg` are not modelled, because they are library internals.
- Multiprocessing: `_do_multiprocessing` is not modelled, because it is concurrency. The indexers' `run()` methods are modelled up to the combinations and labels they hand to it. The `Experiment` `QRunnable` wrapper and the multiprocessing controllers are left out for the same reason.
- PyQt: the signals and the `ListOfFiles`/`ListOfPieces` models are left out. The Importer keeps its file list as a sequence and the messages it would emit as sequences, because GUI glue has no logic of its own.
- I/O: file writes, `converter.parse`, the `Rscript` and LilyPond subprocesses and `open` are parameters or left out. `export` and `output` return the pathname and the table or command line they would write or run.
- Floating point: durations and thresholds are exact reals, where the source adds floats. Binary fractions add exactly in both, but offsets such as the thirds of a triplet do not, and the model does not capture that rounding. `unicode()` of a float or of a list (`PyValues.Str`) is the parameter `show`, because it is Python's float formatting and repr.
- The byTones branches of `real_indexer` are left out, because they are floating-point arithmetic modulo 6.0. So are the offset arithmetic of `VariableHorizontalIntervalIndexer.run` and its run itself.
- `LilyPondIndexer.run` and `PartNotesIndexer.run` are left out, because they hand the score to outputlilypond. The copying of `lily_analysis_voice` and `lily_instruction` attributes onto the new part is left out too, because it is attribute bookkeeping with no effect on the durations.
- `annotate_the_note` is left out, because it only builds a music21 note.
- `ChordsLists.perform` is left out apart from `remove_rests`, because it depends on music21 chord naming and on an `ngram` module that is not imported.
- `import_pieces`, `_get_piece` and `_piece_getter` are left out, because they import scores with music21 and emit signals.
- `add_piece` is left out, because it only forwards to `add_pieces`.
- `models/importing.py` (`ListOfFiles`) is not part of this model. Its `isPresent` is modelled as the first position of a path in the list.
- `controllers/experimenter.py`, `vis/analyzers/indexers/metre.py`, `vis/analyzers/experimenters/template.py` and the packaging files are left out, because they hold no modellable logic.
- `IndexedPiece`'s other methods are left out, because they are empty (`pass`): `metadata`, `indexers_used`, `remove_index` and `experimenters_used`.
- `workflow.py` imports `vis.models.indexed_piece` (lines 35-36), whose `IndexedPiece` has `get_data` and `OpusWarning`; that file is not part of this model. The WorkflowManager holds the `IndexedPiece` class of `models/indexed_piece.py`, which has neither, and `get_data` is a parameter of `load`.
- The `__import__`/`eval` lookup of indexer classes is a static registry: a name is either a registered indexer class or unknown. What the code does with an unknown name is the `IndexedPieces.IndexedPiece.AddIndex` line below.
- The comparison of cached settings is Dafny map equality. The source compares `eval` of the stored `unicode()` key.
- IndexedPieces.IndexedPiece.AddIndex: an unknown indexer name follows the documentation at `models/indexed_piece.py:176-181`. It is collected in missing_indexers, the loop goes on, and the "Unable to import requested Indexers" RuntimeError comes after the loop. The code does otherwise. The `__import__` call at lines 216-220 imports the same plain module `analyzers.indexer` whatever the name, so no name leads to the ImportError handler at 221-223. The `eval` at line 228 then raises AttributeError at the first unknown name, and no later indexer runs. For `[u'NoSuchIndexer', u'IntervalIndexer']` the source raises AttributeError before IntervalIndexer runs; the model runs and caches IntervalIndexer and then raises the RuntimeError. `IndexedPieces.IndexedPiece.RunEach`, `IndexedPieces.IndexedPiece.AddOne` and `IndexedPieces.MissingStep` model the documented path.
- IndexedPieces.IndexedPiece.AddOne: its `NotFound` step for a name outside the registry is the documented ImportError path. The code raises AttributeError at line 228 for such a name, as the line above says.
- IndexedPieces.IndexedPiece.RunEach: it collects unknown names and goes on. The code ends the loop with AttributeError at the first one, as the AddIndex line above says.
- IndexedPieces.MissingStep: missing_indexers grows exactly for a name outside the registry. In the code it never grows, because the ImportError handler is never reached.
- IndexedPieces.IndexedPiece.AddIndex: the registry must be acyclic (a rank function). With a dependency cycle the source recurses without end.
- IndexedPieces.IndexedPiece.AddIndex: the errors are stated exactly only when every prerequisite is itself healthy. An error raised inside a recursive call ends the source's loop early and leaves the cache partly filled. The contract then says only that nothing cached is lost.
- Experimenting.IntervalNGramStatistics.Perform: the sort by name uses `ngram_sorter`, the corrected comparator of the first finding below. The as-written call is modelled by `Experimenting.NgramNameSortRaises`.
- Experimenting.IntervalNGramStatistics.Perform: the n-gram text is the parameter `text`, standing for the `ngram` module that `models/experimenting.py` never imports (the third finding below). The as-written behaviour, NameError at the first completed window, is `Experimenting.NgramsRaiseNameError`.
- Experimenting.IntervalsStatistics.Perform: a dict's keys are visited in first-insertion order. Python 2 visits them in hash order, which decides the order of tied counts after the by-count sort and so which tied keys survive top_x (`models/experimenting.py:602-607`). The hash order is an implementation detail of CPython.
- Experimenting.IntervalNGramStatistics.Perform: the same first-insertion order stands for Python 2's hash order of the n-gram dict, with the same effect on ties.
- Statistics.SortKeys: a comparison that raises makes the sort fail with ValueError, the error the comparators raise on a malformed size. The IndexError that `interval_sorter` raises on a label made only of signs comes out as ValueError too, because the comparators answer an Option.
- LilyPond.LilyPondIndexer.New: the base `Indexer` constructor's RuntimeError for a score of the wrong type is not modelled. The score is a music21 object, and `vis/analyzers/indexer.py` is not part of this model.
- LegacyLilyPond.LilyPondIndexer.New: the same score-type check of the older base `Indexer` is not modelled, for the same reason.
- Workflow.WorkflowManager.Load: the Opus removal is the corrected one of the fourth finding below. The as-written loop is `Workflow.LoadAsWritten`, whose stale index `Workflow.TwoOpusFiles` exhibits. `get_data([NoteRestIndexer])` is the parameter `split`. It says whether a piece imports as an Opus and which pieces it then splits into. The results it caches and its other exceptions are not modelled. As in the source, the settings are not resized when an Opus splits.
- IndexedPieces.IndexedPiece.AddIndex: the missing-settings message lists the spoiled indexers, the corrected message of the second finding below. The as-written message is `IndexedPieces.OutcomeAsWritten`.
- An exception raised part-way through a method ends it with a Failure. What the method changed before the raise is stated only where its contract says so.
- Sorting.Sort: the model's insertion sort and Python's timsort make different comparisons. With a comparator that raises on some pairs only, the model fails exactly when a comparison it makes fails, and Python may fail on other inputs.
- IntervalIndexers.IntervalIndexer.constructor: the base `Indexer` constructor's RuntimeError for a score of the wrong type is not modelled, because the score is a list of music21 parts and `vis/analyzers/indexer.py` is not part of this model.
- IntervalIndexers.NewVariableHorizontal: the same base-class score-type check is not modelled, for the same reason.
- Python 2 strings: `int()` and `unicode()` are ASCII-only. There is no Unicode normalisation.

## Findings

| source | as written | input that shows it | evidently intended | confidence | as-written member | corrected member |
|---|---|---|---|---|---|---|
| models/experimenting.py:916-918 | IntervalNGramStatistics.perform sorts n-gram keys by name with `IntervalsStatistics.interval_sorter`, which compares single interval labels | once the `ngram` import of the third row is supplied, n-grams `'m3 +P4 M6'` and `'M3 -P4 m6'` with `sort_by` `'name'`: `int()` of the text after the quality letters raises ValueError | sort with `IntervalNGramStatistics.ngram_sorter`, which orders n-gram strings token by token | not executed; high | Experimenting.NgramNameSortRaises | Experimenting.NgramNameSortCorrected |
| models/indexed_piece.py:285 | the missing-settings RuntimeError message prints `missing_indexers` | one requested indexer that exists but lacks a required setting: the message is `Indexers missing required settings: []` | print `missing_settings`, naming the indexers without settings | not executed; high | IndexedPieces.OutcomeAsWrittenNamesNothing | IndexedPieces.OutcomeNamesSpoiled |
| models/experimenting.py:870 | `ngram.IntervalNGram(...)` names a module that the imports at lines 32-38 never bring in | one record with one sounding event and `values_of_n` `[1]`: the first completed window raises NameError | import the `ngram` module and count the text of each n-gram | not executed; high | Experimenting.NgramsRaiseNameError | Experimenting.UnigramsCounted |
| workflow.py:159-164 | `self._data[:i] + self._data[i + 1:]` removes an Opus by its index `i` in the original list, after earlier Opus files have already moved the pieces | two files that both import as an Opus: the second removal takes the piece of the first Opus, and the second Opus file stays in the list | remove each Opus from where it now is before appending its pieces | not executed; high | Workflow.TwoOpusFiles | Workflow.WorkflowManager.LoadPieces |
