# music-dataset genre and summary-statistics model

A Dafny model of the three pieces of pure logic in the `mgd` package of the
music-dataset repository, which builds a tabular genre-classification
dataset from GTZAN audio:

- **Genre taxonomy** (`src/mgd/genres.py`, `src/mgd/genre.py`): the closed
  five-member enums `Genres` and `Genre` (CLASSIC, HIP_HOP, ELECTRONIC, POP,
  ROCK, codes 0–4), the GTZAN lookups `is_genre_gtzan` / `from_gtzan_genre`
  over the string and integer mappers, and the numeric decoder
  `Genre.from_number`. Exceptions (`KeyError`, `ValueError`) are modelled as
  the `Failure` side of `Results.Result`.
- **GTZAN label filter and remap** (`gtzan_collect_genres` in
  `src/mgd/pipelines.py`): the tf.data dataset is modelled as a sequence of
  `(audio, label)` examples; the `_filter` keeps labels in {1, 4, 7, 9}, and
  `_map` rewrites labels through the static hash table 1→0, 4→1, 7→3, 9→4
  with default 5.
- **Summary reduction** (`summarize_features` / `_stats` in
  `src/mgd/filters.py`): each feature matrix, laid out (dimension, frame), is
  reduced along the frame axis into mean, std, skew, kurtosis, median, min
  and max vectors with one entry per dimension. Mean, min, max, median
  (numpy's even-length average of the two middle values) and the population
  variance (`ddof=0`) under std are defined concretely.

All numerics are exact Dafny `real`s, not IEEE floats: no rounding, NaN or
infinity is modelled. The square root inside std and scipy's skew and
kurtosis are parameters (`Filters.Moments`); only the sign of the square
root is assumed, through `Filters.NonNegativeRoot`, by the members that
state the sign of std.

Files: `results.dfy` (module `Results`), `genres.dfy` (`GtzanGenres`),
`genre.dfy` (`GenreCodes`), `pipelines.dfy` (`Pipelines`), `rowstats.dfy`
(`RowStatistics`, the one-row reductions), `filters.dfy` (`Filters`).

`from_number` is annotated as returning `Genres` but returns members of
`Genre`; the model returns `Genre` and relates the two enums through
`GenreCodes.ToGenres`.

## Model

| member | source | states |
|---|---|---|
| GtzanGenres.CodesFollowDeclarationOrder | src/mgd/genres.py:6-11 | the five members have codes 0..4 in declaration order and the list of members is complete |
| GtzanGenres.IsGenreGtzan | src/mgd/genres.py:13-19 | a string label is accepted exactly when it is "classical", "hiphop", "pop" or "rock"; an integer label exactly when it is 1, 4, 7 or 9 |
| GtzanGenres.FromGtzanGenre | src/mgd/genres.py:21-27 | the lookup succeeds exactly when `is_genre_gtzan` holds for the same value, fails otherwise with a KeyError carrying that value, and never yields ELECTRONIC |
| GtzanGenres.NumberMapping | src/mgd/genres.py:37-42 | the integer mapper sends 1, 4, 7, 9 to CLASSIC, HIP_HOP, POP, ROCK |
| GtzanGenres.MappersAgree | src/mgd/genres.py:30-42 | classical/1, hiphop/4, pop/7 and rock/9 select the same genre |
| GtzanGenres.MappersInjective | src/mgd/genres.py:30-42 | two accepted labels of the same kind that select the same genre are equal |
| GenreCodes.FromNumber | src/mgd/genre.py:13-30 | decoding succeeds exactly for 0..4, the decoded member's code is the input, and every other integer raises ValueError("Valor não reconhecido") |
| GenreCodes.FromNumberRoundTrip | src/mgd/genre.py:7-28 | decoding a member's own numeric code gives back that member |
| GenreCodes.FromNumberBijective | src/mgd/genre.py:14-28 | 0..4 decode to CLASSIC, HIP_HOP, ELECTRONIC, POP, ROCK in order; distinct accepted codes decode to distinct members; every member is some code's image |
| GenreCodes.ToGenres | src/mgd/genre.py:6-11 | each `Genre` member corresponds to the `Genres` member with the same value tuple |
| GenreCodes.EnumsCoincide | src/mgd/genre.py:6-11 | `Genre` and `Genres` list the same members in the same order with equal codes and display names |
| Pipelines.StaticHashTable.Lookup | src/mgd/pipelines.py:36 | a lookup returns the value bound to the key, or the table's default when the key is missing |
| Pipelines.KeyValueTable | src/mgd/pipelines.py:26-28 | the table built from parallel key and value tensors has exactly the given keys, each bound to the value paired with its first occurrence |
| Pipelines.RemapLabel | src/mgd/pipelines.py:24-28 | `mapper.lookup` sends 1, 4, 7, 9 to 0, 1, 3, 4 and every other label to the default 5 |
| Pipelines.AnyEqual | src/mgd/pipelines.py:31 | `reduce_any(equal(label, classes))` is true exactly when the label occurs in `classes` |
| Pipelines.Keep | src/mgd/pipelines.py:30-31 | an example survives the filter exactly when its label is in {1, 4, 7, 9} |
| Pipelines.FilterExamples | src/mgd/pipelines.py:33 | the filtered dataset is no longer than the input and every example in it passes the filter |
| Pipelines.FilterCounts | src/mgd/pipelines.py:30-33 | the filtered dataset holds each surviving example exactly as often as the input does, and no dropped one |
| Pipelines.FilterAppend | src/mgd/pipelines.py:33 | filtering distributes over concatenation, so survivors keep their relative order |
| Pipelines.FilterLength | src/mgd/pipelines.py:30-33 | the filtered dataset has one entry per input position whose label is kept |
| Pipelines.FilteredAreKept | src/mgd/pipelines.py:30-33 | every example left by the filter is an input example whose label is kept |
| Pipelines.RemappedLabelsInRange | src/mgd/pipelines.py:35-38 | remapping examples with kept labels keeps their audio and yields labels in {0, 1, 3, 4} |
| Pipelines.RemappedAudioFromInput | src/mgd/pipelines.py:30-38 | every audio left by filter-then-map is the audio of an input example whose label is kept |
| Pipelines.MapExamples | src/mgd/pipelines.py:35-38 | the map works example by example: same length, each audio unchanged, each label passed through `RemapLabel` |
| Pipelines.MapAppend | src/mgd/pipelines.py:35-38 | remapping works example by example, so it distributes over concatenation |
| Pipelines.CollectGenres | src/mgd/pipelines.py:24-38 | after filter-then-map every label is in {0, 1, 3, 4} and never the default 5, the output is no longer than the input, and every output audio comes from a kept input example |
| Pipelines.CollectGenresAppend | src/mgd/pipelines.py:30-38 | the whole pipeline distributes over concatenation: the relative order of surviving examples is preserved |
| Pipelines.CollectGenresSingle | src/mgd/pipelines.py:35-38 | a single example is dropped, or kept with its audio unchanged and its label remapped |
| Pipelines.CollectGenresLength | src/mgd/pipelines.py:30-38 | the output length equals the number of input examples whose label is in {1, 4, 7, 9} |
| Pipelines.KeepAgreesWithGenres | src/mgd/pipelines.py:24 | a label survives the filter exactly when `is_genre_gtzan` accepts it |
| Pipelines.RemapAgreesWithGenres | src/mgd/pipelines.py:24-28 | an accepted label is remapped to the code of the genre `from_gtzan_genre` gives for it |
| Pipelines.CollectGenresMatchesGenreCodes | src/mgd/pipelines.py:24-38 | the pipeline equals the reference that keeps exactly the labels `from_gtzan_genre` accepts and relabels each with its genre's code |
| RowStatistics.Min | src/mgd/filters.py:121 | the minimum of a non-empty row is one of its values and no value is smaller |
| RowStatistics.Max | src/mgd/filters.py:122 | the maximum of a non-empty row is one of its values and no value is larger |
| RowStatistics.Mean | src/mgd/filters.py:116 | the mean lies between the row's minimum and maximum, and equals the value of a constant row |
| RowStatistics.SortAscending | src/mgd/filters.py:120 | the ordering the median is taken from is a sorted permutation of the row |
| RowStatistics.Median | src/mgd/filters.py:120 | the median (average of the two middle values for even length) lies between the row's minimum and maximum, and equals the value of a constant row |
| RowStatistics.Variance | src/mgd/filters.py:117 | the population variance under std is non-negative and zero for a constant row |
| Filters.Std | src/mgd/filters.py:117 | the standard deviation is the square root of the population variance (`ddof=0`), non-negative under `NonNegativeRoot` and zero for a constant row |
| Filters.Stats | src/mgd/filters.py:115-122 | reducing along the frame axis gives one entry per row in all seven vectors; min and max are attained row values bounding the row; min ≤ mean ≤ max and min ≤ median ≤ max per row; std ≥ 0; any row without frames is a zero-size-reduction error |
| Filters.ConstantRowsStats | src/mgd/filters.py:116-122 | a row whose frames all equal c gives mean = median = min = max = c and std = 0 |
| Filters.SummarizeFeatures | src/mgd/filters.py:104-128 | summarizing succeeds exactly when all five matrices have frames in every row, and then each field's statistics have one entry per row of that field |
| Filters.SummarizeAppliesStats | src/mgd/filters.py:124-128 | each of the five output fields is exactly `_stats` of its own input field, so every guarantee of `Filters.Stats` holds field by field |
| Filters.SummarizeIsFieldwise | src/mgd/filters.py:124-128 | each output field depends only on its own input field, and equal matrices in any two fields get equal statistics |

## Left out

- Filters.Stats: std is non-negative only for a square root satisfying `NonNegativeRoot`; skew and kurtosis carry only the one-per-row shape, because their float moment numerics are scipy's.
- Filters.Stats: a row without frames is reported as one error; numpy's NaN mean and warnings emitted before `min` raises are not modelled.
- Filters.Stats: matrices are sequences of rows and need not be rectangular; numpy arrays always are. A matrix with no rows reduces to empty vectors.
- Filters.ConstantRowsStats: skew and kurtosis of a constant row are not stated, since they come from scipy.
- Pipelines.KeyValueTable: TensorFlow rejects duplicate keys bound to different values; the model keeps the first binding instead. The source's keys are distinct.
- GtzanGenres.IsGenreGtzan: Python values that are neither `str` nor `int` (a `bool` or a float equal to a key) are not modelled; a label is a string or an integer.
- Pipelines: labels are unbounded integers, not int64 tensors; no GTZAN label comes near the int64 range.
- The dataset save/load cache in `gtzan_collect_genres` (`src/mgd/pipelines.py:16-20, 40-43`) and `gtzan_to_df` (48-53): filesystem and pandas I/O.
- `load_audio` and `extract_features` (`src/mgd/filters.py:48-101`, `src/mgd/pipes.py:35-87`) and the `extract_from_audio` stub (`src/mgd/feature_extraction.py`): audio decoding and librosa's per-frame spectral math.
- `_min_max_normalizer` and `_standard_scaler` (`src/mgd/pipes.py:90-95`): empty stubs with no behaviour.
- `src/mgd/utils.py` and `src/mgd/dataset_processing.py`: HTTP downloads, directory creation, CSV and TFDS builder I/O.
- The `axis` argument of `_stats`: only the default `axis=1` (reduce over frames) is used by `summarize_features` and modelled.
