# Social media statistics with map-reduce, in Dafny

This project models the core of a small social-media analytics workflow. It
is built from line-oriented map-reduce scripts and a local driver that
chains them. The driver is `run_map_reduce_job`, `run_join_job`,
`run_skew_detection` and `main`.

The jobs are:

- **Cleansing.** The mapper validates tab-separated log records: at least
  five fields, a `YYYY-MM-DDThh:mm:ss[Z]` timestamp that names a real
  date and time, and JSON metadata that parses. It re-emits each valid
  record with the user first and counts the discarded records by reason.
  The reducer strips each line.
- **Action aggregation.** The mapper counts posts, likes, comments and
  shares per user. It emits them under the key `user,NNNNN`, where
  `NNNNN` is `10000 - posts` zero-filled to five digits. The reducer
  prints `user<TAB>posts:N,likes:N,comments:N,shares:N` for the first
  record of each run of one user.
- **Trending content.** The mapper counts likes and shares per content
  id. A combiner adds the counts per id. The reducer keeps the ids whose
  count reaches a threshold. The threshold comes from
  `TRENDING_THRESHOLD`, or the 90th percentile when that is negative.
- **Skew detection.** This counts records per key. It reports the keys
  above `max(0.01 * total, 5 * total / unique)` and the ten most common
  keys.
- **Join.** Two mappers tag activity (`A:`) and profile (`P:`) records
  by user id. They salt the keys found skewed into ten copies `user_i`.
  The reducer strips the salt and prints `user<TAB>profile<TAB>activity`
  for each run of one user that holds both.
- **Visualisation.** Only its two parsers are modelled. They read the
  user-activity and trending-content outputs back into columns.

Each script that keeps state across lines is a Dafny `method`. It takes
the lines of its standard input as a `seq<string>` and returns the lines
it prints. The method is proved against a function that specifies the
script over the lines read so far. The scripts that treat each line on its
own (the cleansing reducer and the two join mappers) are functions. The
skew profiler is the method `AnalyzeKeyDistribution` over its lines. Its
report is a value, and the JSON text it prints is a parameter of the
driver.

The properties the scripts promise are lemmas about those functions. The
driver takes the scripts as parameters of type `Stage`, a function from
the environment and the standard-input text to the standard-output text.
The JSON parsers it calls and the percentile are also parameters.

Files: `wrappers.dfy` (Option, two sequence facts), `text.dfy` (Python's
`strip`, `split`, `join`, `lower` and line reading), `numbers.dfy`
(`int()` and decimal formatting), `ordering.dfy` (Python's string order and
`sorted`), `tally.dfy` (a dict counting in insertion order), then one file
per job and `pipeline.dfy` for the driver.

## Model

| member | source | states |
|---|---|---|
| Text.TrimStart | src/cleansing_mapper.py:74 | the leading-whitespace cut is a suffix of the input that starts with a non-space, and everything dropped is whitespace |
| Text.TrimEnd | src/cleansing_mapper.py:74 | the trailing-whitespace cut is a prefix of the input that ends with a non-space, and everything dropped is whitespace |
| Text.Strip | src/cleansing_reducer.py:17 | Python's `strip()`: the leading and then the trailing whitespace cut; what it promises is in StripSpec, StripIdempotent and StripEmptyIff |
| Text.StripSpec | src/cleansing_mapper.py:74 | `strip()` returns a contiguous window of the input that neither starts nor ends with whitespace, and only whitespace lies outside it |
| Text.StripIdempotent | src/cleansing_reducer.py:17 | stripping twice is stripping once |
| Text.StripTrimmed | src/cleansing_reducer.py:17 | a string with no surrounding whitespace is its own strip |
| Text.StripEmptyIff | src/local_mapreduce.py:69-73 | `strip()` is empty exactly when every character is whitespace |
| Text.IndexOf | src/skew_detection.py:43-44 | the first position of a character, or the length when it is absent; no earlier position holds it |
| Text.IndexOfAbsent | src/skew_detection.py:43 | the search reaches the end exactly when the character is not in the string |
| Text.Split | src/cleansing_mapper.py:74 | `split(c)` yields at least one piece and no piece holds the separator |
| Text.SplitOnce | src/join_reducer.py:23 | `split(c, 1)` yields one piece (the whole string) exactly when `c` is absent, else a head without `c`, then `c`, then the rest |
| Text.SplitHead | src/join_profile_mapper.py:27-33 | the first piece of `split(c)` and of `split(c, 1)` is the text before the first `c` |
| Text.Join | src/local_mapreduce.py:248 | Python's `c.join(parts)`: the pieces with one separator between neighbours; JoinSplit and SplitJoin make it the inverse of `split` |
| Text.JoinSplit | src/local_mapreduce.py:77 | `c.join(s.split(c)) == s` |
| Text.SplitJoin | src/local_mapreduce.py:112 | splitting a join of separator-free pieces gives the pieces back |
| Text.JoinEnds | src/local_mapreduce.py:112 | a join of non-empty pieces starts with the first piece's first character and ends with the last piece's last character |
| Text.JoinFree | src/local_mapreduce.py:248 | a character that is not the separator and is in no piece is not in the join |
| Text.JoinAppend | src/local_mapreduce.py:40-44 | joining `p + q` puts one separator between the joins of `p` and `q` |
| Text.SplitFirst | src/join_profile_mapper.py:32-33 | when `a` has no `c`, the first piece of `a + c + b` is `a` |
| Text.ReadLines | src/join_reducer.py:20 | the lines of a text read line by line hold no newline |
| Text.ReadJoinedLines | src/local_mapreduce.py:112-113 | a reducer reading the newline-join of newline-free lines whose last line is not empty reads exactly those lines |
| Text.Lower | src/action_aggregation_mapper.py:26 | the model's lowering (ASCII letters and the Kelvin sign) keeps the length |
| Numbers.DigitChar | src/action_aggregation_mapper.py:40 | the digit character of `d < 10` is a digit worth `d` |
| Numbers.FormatNat | src/action_aggregation_mapper.py:46 | the decimal form of a natural is a non-empty digit string of that value, with no leading zero unless it is 0 |
| Numbers.ParseInt | src/trending_content_combiner.py:23 | Python's `int()` on a string: an optional sign and ASCII digits, else None (the ValueError); ParseFormat makes it the inverse of `str` |
| Numbers.ParseFormat | src/action_aggregation_reducer.py:30 | `int(str(n)) == n` for every integer |
| Numbers.FormatIntChars | src/action_aggregation_mapper.py:46 | `str(n)` is non-empty and made of digits and `-` |
| Numbers.ZeroFill | src/action_aggregation_mapper.py:40 | zero-filling to a width yields the longer of the string and the width |
| Numbers.FormatPadded | src/action_aggregation_mapper.py:40 | `f"{n:0Nd}"`: a minus sign for a negative value, then its digits zero-filled to the width; PaddedValue states its value and length |
| Numbers.PaddedValue | src/action_aggregation_mapper.py:40 | `f"{n:05d}"` is a digit string worth `n`, exactly five long when `n < 100000` |
| Numbers.PaddedDigits | src/action_aggregation_mapper.py:40 | re-padding a digit string's value to its own length gives the string back |
| Numbers.DigitsInjective | src/action_aggregation_mapper.py:40 | two digit strings of one length and one value are equal |
| Ordering.BelowReflexive | src/local_mapreduce.py:77 | the string order is reflexive |
| Ordering.BelowAntisymmetric | src/local_mapreduce.py:77 | the string order is antisymmetric |
| Ordering.BelowTransitive | src/local_mapreduce.py:77 | the string order is transitive |
| Ordering.BelowTotal | src/local_mapreduce.py:77 | any two strings are ordered one way or the other |
| Ordering.PrefixBetween | src/join_reducer.py:30 | a string between two strings that share a prefix shares it too, so the lines of one key are adjacent after sorting |
| Ordering.Insert | src/local_mapreduce.py:77 | inserting into a sorted list keeps it sorted and adds exactly that element |
| Ordering.SortLines | src/local_mapreduce.py:77 | `sorted(lines)` is sorted and a permutation of the lines |
| Ordering.SortedUnique | src/local_mapreduce.py:77 | two sorted permutations of one multiset are equal |
| Ordering.SortOfSorted | src/local_mapreduce.py:96 | sorting sorted lines leaves them unchanged |
| Ordering.SortIdempotent | src/local_mapreduce.py:96 | sorting twice is sorting once |
| Ordering.SortPermutationInvariant | src/local_mapreduce.py:188 | the sort depends only on the multiset of lines |
| Ordering.PrefixBlock | src/action_aggregation_reducer.py:26 | in sorted lines, every line between two lines with a common prefix has that prefix |
| Tally.Order | src/trending_content_mapper.py:37 | dict keys in insertion order: no duplicates, and exactly the keys added |
| Tally.SumOfTotals | src/trending_content_mapper.py:37-38 | over distinct keys that cover the entries, the totals add up to all the weights |
| Tally.OrderTotals | src/trending_content_mapper.py:37-38 | the per-key totals of the dict add up to the sum of all increments |
| Tally.Step | src/trending_content_mapper.py:30 | `d[k] += w` appends `k` to the key order only when new, and changes only `k`'s total, by `w` |
| Tally.DistinctEntries | src/trending_content_combiner.py:30-31 | entries with distinct keys give those keys in order, each with its own weight |
| Tally.AbsentTotal | src/trending_content_mapper.py:16 | a key never added has total 0 (the defaultdict default) |
| Tally.Add | src/trending_content_mapper.py:30 | the dict update keeps the key order and values equal to the specification of all entries so far plus the new one |
| Tally.OrderSameKeys | src/trending_content_combiner.py:30 | the key order depends only on the sequence of keys, not on the weights |
| Cleansing.DaysInMonth | src/cleansing_mapper.py:47 | a month has 28 to 31 days, and February has 29 exactly in leap years |
| Cleansing.DropZ | src/cleansing_mapper.py:45-46 | dropping a trailing `Z` yields a prefix of the timestamp |
| Cleansing.Strptime | src/cleansing_mapper.py:44-50 | `datetime.strptime` with `%Y-%m-%dT%H:%M:%S`: the six fields of a 19-character text when they name a real date and time, else None; FormattedValid and ValidIsFormatted pair it with the canonical formatting |
| Cleansing.ValidTimestamp | src/cleansing_mapper.py:30-50 | `validate_timestamp`: the pattern holds and strptime accepts the text without its trailing `Z`; ValidIsFormatted shows an accepted text is the canonical form of a real date and time |
| Cleansing.GroupsOfAssemble | src/cleansing_mapper.py:27 | assembling the six digit groups gives a 19-character timestamp whose groups are those |
| Cleansing.FormatGroups | src/cleansing_mapper.py:47 | the canonical form of a real date-time matches the pattern, and `strptime` parses it back to that date-time |
| Cleansing.FormattedValid | src/cleansing_mapper.py:30-50 | every real date-time, with or without `Z`, is a valid timestamp that parses back to itself |
| Cleansing.ValidIsFormatted | src/cleansing_mapper.py:30-50 | every valid timestamp is the canonical form of a real date-time, possibly followed by `Z` |
| Cleansing.Outcomes | src/cleansing_mapper.py:71-102 | one outcome per input line |
| Cleansing.OutcomesSnoc | src/cleansing_mapper.py:78-101 | one more outcome adds its record to the output and its reason to the counters |
| Cleansing.Classify | src/cleansing_mapper.py:72-101 | one loop iteration: missing fields, then the timestamp, then the JSON verdict, and an accepted line re-emitted with the user first; ClassifyFields states each outcome |
| Cleansing.ClassifyFields | src/cleansing_mapper.py:74-97 | a line is missing-fields below five fields, else invalid-timestamp, else malformed-json, else an unexpected error, else emitted as user, timestamp, action, content, metadata |
| Cleansing.RunMapper | src/cleansing_mapper.py:71-106 | the mapper prints exactly the cleansed records, its counters are the discard counts by reason, and its report has the four counter lines |
| Cleansing.Record | src/cleansing_mapper.py:77-101 | one outcome appends its record or adds to its counters |
| Cleansing.ValidateLine | src/cleansing_mapper.py:72-101 | the per-line checks compute the line's outcome |
| Cleansing.EveryLineAccounted | src/cleansing_mapper.py:71-101 | emitted records plus `total_discarded` equals the number of input lines |
| Cleansing.OutcomesAccounted | src/cleansing_mapper.py:77-101 | every outcome is emitted or counted in `total_discarded`, never both |
| Cleansing.TotalIsSum | src/cleansing_mapper.py:78-101 | `total_discarded` is the three reasons plus the unexpected errors |
| Cleansing.EmittedRecord | src/cleansing_mapper.py:85-97 | an emitted record came from a line with five fields, a valid timestamp and parsed JSON, and it splits into those fields with the user first |
| Cleansing.LineWithoutTab | src/cleansing_mapper.py:77-80 | a tab-free line is counted as missing fields, once, and emits nothing |
| Cleansing.NoTabMissing | src/cleansing_mapper.py:77 | a tab-free line has fewer than five fields |
| Cleansing.Reduce | src/cleansing_reducer.py:15-17 | the reducer prints one line per input line |
| Cleansing.ReduceTrims | src/cleansing_reducer.py:17 | each printed line is the stripped window of its input line |
| Cleansing.ReduceIdempotent | src/cleansing_reducer.py:15-17 | running the reducer on its own output changes nothing |
| Cleansing.ReduceBlank | src/cleansing_reducer.py:17 | a printed line is empty exactly when its input line was whitespace |
| Aggregation.Actions | src/action_aggregation_mapper.py:19-30 | the counted (user, action) pairs all name one of the four actions |
| Aggregation.ActionFields | src/action_aggregation_mapper.py:22-30 | a line counts `(fields[0], lower(fields[2]))` exactly when it has three fields and the lowered action is one of the four |
| Aggregation.WeightsOrder | src/action_aggregation_mapper.py:37 | every action's tally lists the users in first-seen order |
| Aggregation.UserCountsSnoc | src/action_aggregation_mapper.py:30 | one more pair bumps its user's count for its action and leaves other users alone |
| Aggregation.UserCountsAbsent | src/action_aggregation_mapper.py:16 | a user never seen has four zero counts |
| Aggregation.Increment | src/action_aggregation_mapper.py:30 | the dict update keeps order and counts equal to the specification of all pairs so far |
| Aggregation.Records | src/action_aggregation_mapper.py:37-48 | one record per distinct user |
| Aggregation.RunMapper | src/action_aggregation_mapper.py:16-48 | the mapper prints exactly the specified records |
| Aggregation.EmitRecords | src/action_aggregation_mapper.py:37-48 | the emitting loop prints the records of the users in first-seen order |
| Aggregation.RecordAt | src/action_aggregation_mapper.py:37-48 | the j-th record is the line for the j-th user and their counts |
| Aggregation.FormatRecord | src/action_aggregation_mapper.py:40-48 | the printed line is `user,sortkey<TAB>post,like,comment,share` |
| Aggregation.WeightsSum | src/action_aggregation_mapper.py:30 | the weights for an action add up to how often it occurs |
| Aggregation.ActionTotals | src/action_aggregation_mapper.py:30 | summed over all users, an action's counts equal its occurrences in the input |
| Aggregation.IgnoredLine | src/action_aggregation_mapper.py:24-29 | deleting a line that counts nothing leaves the pairs and the output unchanged |
| Aggregation.IgnoredLast | src/action_aggregation_mapper.py:24-29 | a trailing line that counts nothing changes nothing |
| Aggregation.AliceExample | src/action_aggregation_mapper.py:37-48 | a like and a post by one user print `alice,09999<TAB>1,1,0,0` |
| Aggregation.AliceRecord | src/action_aggregation_mapper.py:40-48 | the record line of one post and one like is `alice,09999<TAB>1,1,0,0` |
| Aggregation.SortKeyOne | src/action_aggregation_mapper.py:40 | one post gives the sort key `09999` |
| Aggregation.DigitsOrder | src/action_aggregation_mapper.py:38-40 | equal-length digit strings compare as their values do |
| Aggregation.SortKeyDigits | src/action_aggregation_mapper.py:40 | for 0 to 10000 posts the key is five digits worth `10000 - posts` |
| Aggregation.SortKeyOrder | src/action_aggregation_mapper.py:38-40 | for 0 to 10000 posts, a key sorts first exactly when its user has at least as many posts |
| Aggregation.SortKeyNegative | src/action_aggregation_mapper.py:40 | above 10000 posts the key starts with `-`; 10001 posts give `-0001` |
| Aggregation.RunReducer | src/action_aggregation_reducer.py:14-38 | the reducer prints exactly the specified summaries |
| Aggregation.ReduceLine | src/action_aggregation_reducer.py:18-38 | one line is one specification step: a malformed line changes nothing; a new user becomes current and is printed when the counts parse |
| Aggregation.SummariesSnoc | src/action_aggregation_reducer.py:26-34 | one more pair adds a summary exactly when its user differs from the last one |
| Aggregation.StepSummaries | src/action_aggregation_reducer.py:18-34 | a reducer step agrees with the run-start specification |
| Aggregation.ReducerSummaries | src/action_aggregation_reducer.py:14-38 | the reducer prints, for each run of one user, the summary of the run's first record, and its current user is the last one read |
| Aggregation.OneSummaryPerRun | src/action_aggregation_reducer.py:26-34 | a run of one user prints only its first record's summary |
| Aggregation.AllSummarised | src/action_aggregation_reducer.py:26-34 | when consecutive users differ and all counts parse, every record is summarised in order |
| Aggregation.RecordRoundTrip | src/action_aggregation_reducer.py:20-30 | the reducer reads back the user and the four counts of a mapper record |
| Aggregation.KeyRoundTrip | src/action_aggregation_reducer.py:20-23 | the reducer reads back the user and the value of a mapper record |
| Aggregation.LineFields | src/action_aggregation_mapper.py:43-48 | a record splits into key and value, and the key into user and sort key |
| Aggregation.LineTrimmed | src/action_aggregation_reducer.py:20 | a record line has no surrounding whitespace when the user does not start with one |
| Aggregation.ValueChars | src/action_aggregation_mapper.py:46 | the value is non-empty and made of digits, `-` and `,` |
| Aggregation.CountsRoundTrip | src/action_aggregation_reducer.py:30 | `map(int, value.split(','))` gives back the four counts |
| Aggregation.ValueJoin | src/action_aggregation_mapper.py:46 | the value is the comma-join of the four counts |
| Aggregation.SortKeyChars | src/action_aggregation_mapper.py:40 | the sort key is made of digits and `-` |
| Aggregation.EndToEnd | src/action_aggregation_reducer.py:17-34 | the reducer fed the records of distinct users prints one summary per user with their counts, in order |
| Aggregation.RecordsReadBack | src/action_aggregation_reducer.py:20-23 | the reducer parses every mapper record into its user and value |
| Aggregation.RecordSummaries | src/action_aggregation_reducer.py:26-34 | records of distinct users are all run starts, so each is summarised |
| Aggregation.AllPairs | src/action_aggregation_reducer.py:20 | lines that all parse give exactly their pairs |
| Trending.EmitCounts | src/trending_content_mapper.py:37-38 | one output line per distinct content id |
| Trending.MapperEntries | src/trending_content_mapper.py:19-30 | each engagement adds weight 1 |
| Trending.RunMapper | src/trending_content_mapper.py:16-38 | the mapper prints exactly the per-id counts in first-seen order |
| Trending.EngagementFields | src/trending_content_mapper.py:22-30 | a line counts for `fields[3]` exactly when it has four fields and its lowered action is `like` or `share` |
| Trending.EmitDict | src/trending_content_mapper.py:37-38 | the emitting loop prints `id<TAB>count` for the ids in first-seen order |
| Trending.MapperTotal | src/trending_content_mapper.py:30-38 | the printed counts add up to the number of likes and shares in the input |
| Trending.EntriesCount | src/trending_content_mapper.py:29-30 | the increments add up to the number of likes and shares |
| Trending.MapperCountsPositive | src/trending_content_mapper.py:30 | every printed id has a count of at least 1 |
| Trending.IgnoredLine | src/trending_content_mapper.py:24-29 | deleting a line that is not a like or share leaves the output unchanged |
| Trending.IgnoredLast | src/trending_content_mapper.py:24-29 | a trailing line that is not a like or share changes nothing |
| Trending.RunCombiner | src/trending_content_combiner.py:16-31 | the combiner prints exactly the per-id sums in first-seen order |
| Trending.CombinerFields | src/trending_content_combiner.py:22-23 | a line of exactly two fields adds its parsed count to its id, or 0 when the count does not parse (the key is still created); other lines add nothing |
| Trending.ReadCountLine | src/trending_content_combiner.py:22-23 | the combiner reads back the id and count of a printed `id<TAB>count` line |
| Trending.CombinerIdGood | src/trending_content_combiner.py:22 | every id the combiner keeps is non-empty, tab-free and does not start with whitespace |
| Trending.CombinerIdsGood | src/trending_content_combiner.py:30 | every id the combiner prints is such an id |
| Trending.CombineCanonical | src/trending_content_combiner.py:16-31 | count lines of distinct well-formed ids pass through the combiner unchanged |
| Trending.CombinerEntriesOfCanonical | src/trending_content_combiner.py:19-23 | the combiner reads count lines back as their entries |
| Trending.CombineIdempotent | src/trending_content_combiner.py:16-31 | combining the combiner's output again changes nothing |
| Trending.CombinerPreservesSum | src/trending_content_combiner.py:23-31 | the counts on the printed lines, read back as the combiner reads them, add up to the counts the combiner read |
| Trending.Engagements | src/trending_content_reducer.py:32 | `all_engagements` holds the count of each record, in order |
| Trending.Trunc | src/trending_content_reducer.py:48 | `int(x)` truncates toward zero |
| Trending.Threshold | src/trending_content_reducer.py:18-45 | a non-negative setting is the threshold; otherwise the percentile of the counts, or 0 when there are none |
| Trending.Trending | src/trending_content_reducer.py:51-53 | the records whose count reaches the threshold, in input order; TrendingMembers and TrendingSubsequence state it |
| Trending.TrendingPrefix | src/trending_content_reducer.py:51-53 | one more record is printed exactly when its count reaches the threshold |
| Trending.RecordLines | src/trending_content_reducer.py:53 | one output line per trending record |
| Trending.RunReducer | src/trending_content_reducer.py:18-53 | an unparsable setting aborts the reducer; otherwise it prints the records reaching the threshold and reports the threshold truncated |
| Trending.CollectRecords | src/trending_content_reducer.py:25-37 | the first pass keeps the records of exactly two fields with an integer count, and their counts |
| Trending.RecordFields | src/trending_content_reducer.py:28-29 | a line is a record exactly when it has two fields and the second parses |
| Trending.EmitTrending | src/trending_content_reducer.py:51-53 | the second pass prints the records whose count reaches the threshold |
| Trending.TrendingMembers | src/trending_content_reducer.py:51-53 | a record is printed exactly when it was read and its count reaches the threshold |
| Trending.TrendingSubsequence | src/trending_content_reducer.py:51-53 | the printed records keep their input order |
| Trending.FixedThreshold | src/trending_content_reducer.py:18-52 | with a non-negative setting, a record is printed exactly when its count reaches the setting |
| Trending.NoRecords | src/trending_content_reducer.py:40-48 | with no records and no setting, the threshold is 0, reported as 0, and nothing is printed |
| Trending.IgnoredRecord | src/trending_content_reducer.py:35-37 | deleting a malformed line leaves the records unchanged |
| Trending.IgnoredLastRecord | src/trending_content_reducer.py:35-37 | a trailing malformed line changes nothing |
| Skew.KeyEntries | src/skew_detection.py:37-46 | every line adds one count |
| Skew.SkewThreshold | src/skew_detection.py:64-67 | the threshold is the larger of the absolute and the relative threshold |
| Skew.Above | src/skew_detection.py:70 | the skewed keys are exactly those counted more than the threshold |
| Skew.InsertDesc | src/skew_detection.py:73 | inserting into the descending order adds exactly that item |
| Skew.SortDesc | src/skew_detection.py:73 | the descending sort is a permutation |
| Skew.MostCommon | src/skew_detection.py:73 | `most_common(n)` returns `n` items, or all of them when there are fewer |
| Skew.Analysis | src/skew_detection.py:37-76 | the report for some lines: zeros for no lines, else the totals, the threshold, the keys above it and the ten most common; SkewedExact and TopKeys state it |
| Skew.AnalyzeKeyDistribution | src/skew_detection.py:22-96 | the counting loop computes the specified report |
| Skew.CountsSumToTotal | src/skew_detection.py:37-46 | the per-key counts add up to the number of lines, and a blank line counts for the empty key |
| Skew.UnitWeights | src/skew_detection.py:46 | unit increments add up to their number |
| Skew.KeyIsPrefix | src/skew_detection.py:40-44 | the key is the first field up to its first comma |
| Skew.EmptyInput | src/skew_detection.py:51-58 | there are no unique keys exactly when there is no input, and then the report is all zero |
| Skew.SkewedExact | src/skew_detection.py:64-70 | with the default factor, a key is skewed exactly when `100 * count > total` and `count * unique > 5 * total` |
| Skew.HeavyBound | src/skew_detection.py:66-70 | keys above five times the average hold more than five averages each |
| Skew.AboveHeavy | src/skew_detection.py:66-70 | every key above the threshold is above five times the average |
| Skew.FewSkewed | src/skew_detection.py:60-70 | fewer than a fifth of the unique keys can be skewed |
| Skew.KeyCounts | src/skew_detection.py:46-76 | the per-key counts are non-negative and add up to the number of lines |
| Skew.HeavyFew | src/skew_detection.py:66-70 | fewer than a fifth of the counts can exceed five times the average |
| Skew.SkewedKeysExact | src/skew_detection.py:70 | a key is reported skewed exactly when it was counted more than the threshold |
| Skew.InsertDescSorted | src/skew_detection.py:73 | inserting keeps the order non-increasing by count |
| Skew.InsertDescStable | src/skew_detection.py:73 | inserting puts the new item before the earlier items of equal count |
| Skew.SortDescSpec | src/skew_detection.py:73 | the sort is non-increasing, and items of equal count keep their first-seen order |
| Skew.MostCommonSpec | src/skew_detection.py:73 | `most_common(n)` is the first `n` of the stable descending sort, no item left out counts more, and the sort is a permutation |
| Skew.TopKeys | src/skew_detection.py:73 | the top keys are at most ten, the ten most common of the per-key counts |
| Join.SkewedSet | src/join_activity_mapper.py:16-17 | an empty setting gives no skewed keys; otherwise the keys are the comma-separated pieces |
| Join.Salt | src/join_activity_mapper.py:33-40 | a skewed key is emitted ten times, any other key once |
| Join.ActivityLine | src/join_activity_mapper.py:26-40 | a tab-free line emits nothing; otherwise the id before the first tab is emitted with `A:` and the rest, salted when skewed |
| Join.ActivityRecords | src/join_activity_mapper.py:26-40 | a line yields records exactly when its stripped text holds a tab, and never more than ten |
| Join.ActivityMapper | src/join_activity_mapper.py:23-43 | the activity mapper yields at most ten records a line |
| Join.ProfileLine | src/join_profile_mapper.py:27-48 | every line emits the id before the first comma of its first field, with `P:` and the whole stripped line, salted when skewed |
| Join.ProfileRecords | src/join_profile_mapper.py:27-48 | every line yields between one and ten records |
| Join.ProfileMapper | src/join_profile_mapper.py:24-51 | the profile mapper yields at least one and at most ten records a line |
| Join.ProfileWithoutTab | src/join_profile_mapper.py:27-48 | a tab-free profile `id,rest` of an unskewed id emits `id<TAB>P:id,rest` |
| Join.GroupKey | src/join_reducer.py:26-27 | the grouping key is the longest prefix of the key without `_`: it is a prefix, holds no `_`, and is followed by `_` when shorter than the key |
| Join.SaltRoundTrip | src/join_reducer.py:26-27 | removing the salt gives back every salted key's user, and an unsalted key unchanged |
| Join.RunJoinReducer | src/join_reducer.py:15-55 | the reducer prints exactly the specified joined lines |
| Join.JoinLine | src/join_reducer.py:21-51 | one line is one specification step |
| Join.ReadRecord | src/join_reducer.py:23-27 | a line is read as its unsalted user and tagged data, or skipped without a tab |
| Join.StoreRecord | src/join_reducer.py:30-47 | a new user closes the current group, then a `P` or `A` tag stores its payload |
| Join.Runs | src/join_reducer.py:30 | runs of one user are non-empty and exist exactly when there are records |
| Join.RunsSnoc | src/join_reducer.py:30-38 | one more record extends the last run when its user continues it, else opens a new run |
| Join.RunsFlatten | src/join_reducer.py:30 | the runs concatenate back to the records |
| Join.RunsKeys | src/join_reducer.py:30 | within a run all users agree and neighbouring runs have different users |
| Join.FoldRuns | src/join_reducer.py:20-47 | the reducer's state is the open state of the record runs |
| Join.JoinSpec | src/join_reducer.py:15-55 | the output is, run by run, the joined line of each run that holds both a profile and activity |
| Join.AtMostOnePerRun | src/join_reducer.py:32-33 | each run prints at most one line |
| Join.LastWins | src/join_reducer.py:44-47 | the last payload of a tag in a run wins |
| Join.OneGroup | src/join_reducer.py:30 | records of one user form a single run |
| Join.JoinPair | src/join_reducer.py:15-55 | an activity and a profile record of one user print `user<TAB>profile<TAB>activity` |
| Join.PairRun | src/join_reducer.py:41-55 | that run's joined line is `user<TAB>profile<TAB>activity` |
| Join.RecordOfLine | src/join_reducer.py:23-27 | the reducer reads `key<TAB>tagged` as the unsalted key and the tagged data |
| Join.SaltedRecordsRead | src/join_activity_mapper.py:35-40 | every line a mapper emits for a key is read by the reducer as that key and its tagged value |
| Visualize.ParseUserActivity | src/visualize_analytics.py:35-75 | the columns hold exactly the parsed rows, in order, and `total_activity` is the sum of the four counts of each row |
| Visualize.ParseActivityLine | src/visualize_analytics.py:45-62 | a line gives a row when it has two fields and its activity counts parse |
| Visualize.ParseActivity | src/visualize_analytics.py:51-56 | the loop builds the specified activity dict, or fails on a bad count |
| Visualize.BadCountSticks | src/visualize_analytics.py:53-56 | once a count fails to parse, the whole line fails |
| Visualize.IgnoredPart | src/visualize_analytics.py:55 | a part that does not split into exactly two pieces is skipped |
| Visualize.DictFails | src/visualize_analytics.py:53-64 | the dict fails exactly when some two-piece part has a count that does not parse |
| Visualize.DictAbsent | src/visualize_analytics.py:59-62 | a name no part sets reads as 0 |
| Visualize.DictLast | src/visualize_analytics.py:56-62 | a name reads as the count of the last part that sets it |
| Visualize.SummaryRoundTrip | src/visualize_analytics.py:45-62 | a summary line of the aggregation reducer is read back as its user and four counts |
| Visualize.SummaryShape | src/action_aggregation_reducer.py:33 | the summary is the user, a tab and the comma-join of the four `name:N` parts |
| Visualize.SummaryValueChars | src/visualize_analytics.py:45 | the activity field is non-empty, tab-free and ends in a non-space |
| Visualize.SummaryDict | src/visualize_analytics.py:51-62 | the activity field parses, and the four names read as the four counts |
| Visualize.SummarySplit | src/visualize_analytics.py:51 | the activity field splits on commas into its four parts |
| Visualize.PartsDict | src/visualize_analytics.py:53-56 | the four parts set the four names to the four counts |
| Visualize.NamedPart | src/visualize_analytics.py:54-56 | a `name:N` part splits into the name and N, and N parses back |
| Visualize.ParseTrendingContent | src/visualize_analytics.py:95-110 | the two columns hold exactly the parsed ids and counts, in order |
| Visualize.ParseTrendingLine | src/visualize_analytics.py:102-108 | a line gives a row when it has two fields and the second parses |
| Visualize.CountLineRoundTrip | src/visualize_analytics.py:102-108 | an `id<TAB>count` line of the trending reducer is read back as that id and count |
| Pipeline.MergeDirectory | src/local_mapreduce.py:33-46 | the merged input is each file followed by a newline |
| Pipeline.MergedJoin | src/local_mapreduce.py:40-44 | the merged input is the newline-join of the files plus a final newline |
| Pipeline.Shuffle | src/local_mapreduce.py:77 | the shuffle is sorted and a permutation of the stripped output's lines |
| Pipeline.JobOutput | src/local_mapreduce.py:69-113 | the output file's text: empty when the mapper prints only whitespace, else the reducer run on the shuffled (and combined) lines; ReducerInput states the shuffle |
| Pipeline.RunMapReduceJob | src/local_mapreduce.py:15-126 | the job writes the specified output and returns True; an output of only whitespace writes an empty file without running the reducer |
| Pipeline.ShuffleReadBack | src/local_mapreduce.py:112-113 | the reducer reads exactly the sorted lines, or no line at all when the mapper printed only whitespace |
| Pipeline.NoNewlines | src/local_mapreduce.py:77 | no sorted line holds a newline |
| Pipeline.LastLineNonEmpty | src/local_mapreduce.py:77 | when the output is not blank, the last sorted line is not empty |
| Pipeline.ShuffleIdempotent | src/local_mapreduce.py:90-96 | re-shuffling the joined shuffle of non-empty trimmed lines changes nothing |
| Pipeline.ReducerInput | src/local_mapreduce.py:77-112 | the reducer's lines are sorted and a permutation of the last stage's lines |
| Pipeline.JoinShuffle | src/local_mapreduce.py:184-188 | the stripped outputs of both mappers, joined by a newline, split into lines and sorted |
| Pipeline.JoinShuffleLines | src/local_mapreduce.py:184-188 | the join shuffle is sorted and holds both sides' lines; a blank side contributes one empty line |
| Pipeline.RunJoinJob | src/local_mapreduce.py:128-214 | the join job feeds the reducer the sorted lines of both mappers and returns True |
| Pipeline.RunSkewDetection | src/local_mapreduce.py:216-251 | the profiler output is written as is; output that does not parse gives the empty key string, and otherwise the key string is the comma-join of the parsed `skewed_keys` |
| Pipeline.SkewedKeysReachJoin | src/join_activity_mapper.py:16-17 | comma-free keys joined by commas reach the join mappers as that set of keys |
| Pipeline.SkewedKeysHandOff | src/local_mapreduce.py:245-251 | the join mappers see no skewed key when the profiler output does not parse or lists none, and otherwise exactly the keys it lists, when none holds a comma |
| Pipeline.ProfiledKeys | src/skew_detection.py:40-44 | the skewed keys hold no comma |
| Pipeline.KeyHasNoComma | src/skew_detection.py:43-44 | a profiled key holds no comma |
| Pipeline.Workflow | src/local_mapreduce.py:253-389 | the exit code is 0 exactly when the input directory exists, else 1; each output is written exactly when its job is selected, and skew analysis only for all jobs |
| Pipeline.RunWorkflow | src/local_mapreduce.py:290-389 | the driver's steps compute the specified exit code and outputs |
| Pipeline.AllChains | src/local_mapreduce.py:324-374 | with all jobs, aggregation and trending read the cleansed data, skew detection reads the user activity, and the join gets its skewed keys and reads the user activity |

## Left out

- Processes, files and standard error are not modelled. Each script is a function from its input lines to its output lines. The driver's stages are parameters from the environment and the input text to the output text. Timing, progress messages, the `stderr` echoes and `os.makedirs` are left out.
- The driver's paths (`project_root`, `os.path.join`, `os.listdir` order) are not modelled. A directory input is the sequence of its files' contents. `args.input_dir` and the resolved input directory are taken to be the same directory.
- JSON is a parameter. The cleansing mapper's `json.loads` is a function from the metadata to parsed, decode error or another error. The skew report's JSON form, and the driver's parse of it into a list of keys, are a parameter too.
- Trending.RunReducer: `np.percentile` is a parameter from the engagement list to a real number. The threshold is an exact real, not a floating-point number.
- Skew.AnalyzeKeyDistribution: the report keeps the totals, threshold, skewed keys and top keys. It leaves out the numpy `distribution_stats` and the float averages. The threshold is an exact real, not a floating-point number.
- The visualisation charts, the dashboard, pandas data frames and matplotlib are not modelled. Only the two parsers are. `visualize_analytics.py` is part of the core only for them.
- Pipeline.ShuffleIdempotent requires every sorted line to be non-empty and trimmed. A second shuffle strips the joined text, which drops blank lines and trims the ends.
- `int()` is modelled as an optional sign followed by ASCII digits. It does not model surrounding whitespace, `_` separators or non-ASCII digits, which Python also accepts.
- `lower()` is modelled for ASCII letters and the Kelvin sign. That is exact for the comparisons against the four action names, but not Unicode's full case mapping.
- The timestamp pattern's `\d` is modelled as ASCII digits. Python's `re` also matches other Unicode digits in `str` patterns.
- Reading a file uses `\n` as the line end. Universal-newline translation and encoding errors are not modelled.
- Cleansing.RunMapper: the counter report is modelled as the four lines the mapper writes to standard error. No Hadoop counter is updated.
- Aggregation.AliceExample and Aggregation.AliceRecord state the one worked example for one user name. The general properties are EndToEnd and RecordRoundTrip.
