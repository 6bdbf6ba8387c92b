/** The local MapReduce driver: a job runs its mapper over the input text,
    sorts the mapper's output lines, optionally runs a combiner and sorts
    again, and hands the sorted lines to its reducer; the join job sorts the
    two mappers' outputs together; the workflow runs the requested jobs in
    order, feeding the cleansed data and the user activity forward.
    Every script is a function from its environment and its standard input
    to its standard output. */
module Pipeline {
  import opened Wrappers
  import opened Text
  import opened Ordering
  import Skew
  import Join

  /** Environment variables added for a job. */
  type Env = map<string, string>

  /** A mapper, combiner or reducer script: its standard output, given its
      environment and its standard input. */
  type Stage = (Env, string) -> string

  /** A job's input path: a file, or a directory whose files are read in
      listing order. */
  datatype Input = File(text: string) | Directory(files: seq<string>)

  // ------------------------------------------------------ directory input

  /** The temporary file a directory input is merged into: each file's
      text followed by a newline. */
  function Merged(files: seq<string>): string {
    if files == [] then ""
    else Merged(files[..|files| - 1]) + files[|files| - 1] + "\n"
  }

  /** The write loop over the directory's files. */
  method MergeDirectory(files: seq<string>) returns (merged: string)
    ensures merged == Merged(files)
  {
    merged := "";
    for i := 0 to |files|
      invariant merged == Merged(files[..i])
    {
      assert files[..i + 1][..i] == files[..i];
      merged := merged + files[i];
      merged := merged + "\n";
    }
    assert files[..|files|] == files;
  }

  /** The merged text is the files joined by newlines, plus a final
      newline. */
  lemma {:induction false} MergedJoin(files: seq<string>)
    requires files != []
    ensures Merged(files) == Text.Join(files, '\n') + "\n"
  {
    var init := files[..|files| - 1];
    var last := files[|files| - 1];
    if init == [] {
      assert files == [last];
    } else {
      MergedJoin(init);
      JoinAppend(init, [last], '\n');
      assert init + [last] == files;
    }
  }

  /** The text the mapper reads. */
  function InputText(input: Input): string {
    match input
    case File(text) => text
    case Directory(files) => Merged(files)
  }

  // -------------------------------------------------------------- shuffle

  /** `sorted(output.strip().split('\n'))`: the sort is over whole lines. */
  function Shuffle(output: string): (r: seq<string>)
    ensures Sorted(r)
    ensures multiset(r) == multiset(Split(Strip(output), '\n'))
  {
    SortLines(Split(Strip(output), '\n'))
  }

  /** The lines the reducer is given: the sorted mapper output, or, with a
      combiner, the sorted output of the combiner run on it. */
  function ReducerLines(mapper: Stage, combiner: Option<Stage>, env: Env, text: string): seq<string> {
    var sorted := Shuffle(mapper(env, text));
    match combiner
    case None => sorted
    case Some(combine) => Shuffle(combine(env, Text.Join(sorted, '\n')))
  }

  /** What `run_map_reduce_job` writes to its output path. */
  function JobOutput(mapper: Stage, reducer: Stage, input: Input, combiner: Option<Stage>, env: Env): string {
    var text := InputText(input);
    if Strip(mapper(env, text)) == [] then ""
    else reducer(env, Text.Join(ReducerLines(mapper, combiner, env, text), '\n'))
  }

  /** `run_map_reduce_job`: the output file's text, and the result, which is
      always true; a mapper printing only whitespace leaves an empty output
      and runs neither combiner nor reducer. */
  method RunMapReduceJob(mapper: Stage, reducer: Stage, input: Input, combiner: Option<Stage>, env: Env)
    returns (output: string, success: bool)
    ensures success
    ensures output == JobOutput(mapper, reducer, input, combiner, env)
    ensures Strip(mapper(env, InputText(input))) == [] ==> output == ""
  {
    var inputText: string;
    if input.Directory? {
      inputText := MergeDirectory(input.files);
    } else {
      inputText := input.text;
    }
    assert inputText == InputText(input);
    var mapperOutput := mapper(env, inputText);
    if Strip(mapperOutput) == [] {
      return "", true;
    }
    var sortedLines := Shuffle(mapperOutput);
    if combiner.Some? {
      var combinerInput := Text.Join(sortedLines, '\n');
      mapperOutput := combiner.value(env, combinerInput);
      sortedLines := Shuffle(mapperOutput);
    }
    assert sortedLines == ReducerLines(mapper, combiner, env, inputText);
    var reducerInput := Text.Join(sortedLines, '\n');
    output := reducer(env, reducerInput);
    success := true;
  }

  /** The reducer, reading its standard input line by line, sees exactly
      the sorted lines when the stage before it printed something, and no
      line at all when it printed only whitespace. */
  lemma ShuffleReadBack(output: string)
    ensures Strip(output) == [] ==> ReadLines(Text.Join(Shuffle(output), '\n')) == []
    ensures Strip(output) != [] ==> ReadLines(Text.Join(Shuffle(output), '\n')) == Shuffle(output)
  {
    var st := Strip(output);
    var s := Shuffle(output);
    if st == [] {
      assert Split(st, '\n') == [""];
      SortOfSorted([""]);
    } else {
      NoNewlines(output);
      var last := LastLineNonEmpty(output);
      ReadJoinedLines(s);
    }
  }

  /** The shuffled lines hold no newline. */
  lemma NoNewlines(output: string)
    ensures forall i :: 0 <= i < |Shuffle(output)| ==> '\n' !in Shuffle(output)[i]
  {
    var s := Shuffle(output);
    var pieces := Split(Strip(output), '\n');
    forall i | 0 <= i < |s|
      ensures '\n' !in s[i]
    {
      assert s[i] in multiset(pieces);
    }
  }

  /** When the stripped output is not empty, its first line is not empty,
      so the largest line, which the sort puts last, is not empty either. */
  lemma LastLineNonEmpty(output: string) returns (last: string)
    requires Strip(output) != []
    ensures Shuffle(output) != [] && last == Shuffle(output)[|Shuffle(output)| - 1] && last != ""
  {
    var first := FirstLineNonEmpty(output);
    var s := Shuffle(output);
    assert first in multiset(s);
    LastOfSortedNonEmpty(s, first);
    last := s[|s| - 1];
  }

  /** The first line of a stripped, non-empty output is not empty: the
      output does not start with the newline that would end it. */
  lemma FirstLineNonEmpty(output: string) returns (first: string)
    requires Strip(output) != []
    ensures first == Split(Strip(output), '\n')[0] && first != ""
  {
    var st := Strip(output);
    StripSpec(output);
    SplitHead(st, '\n');
    assert IsSpace('\n');
    assert IndexOf(st, '\n') != 0;
    first := Split(st, '\n')[0];
  }

  /** Only the empty line sorts below the empty line, so a sorted list
      holding a non-empty line ends with a non-empty line. */
  lemma LastOfSortedNonEmpty(s: seq<string>, x: string)
    requires Sorted(s) && x in s && x != ""
    ensures s[|s| - 1] != ""
  {
    var k :| 0 <= k < |s| && s[k] == x;
    if k < |s| - 1 {
      assert Below(x, s[|s| - 1]);
    }
  }

  /** Re-shuffling shuffled lines that are neither empty nor padded with
      whitespace changes nothing: the second sort of a combiner's
      pass-through output is the first one. */
  lemma ShuffleIdempotent(output: string)
    requires forall i :: 0 <= i < |Split(Strip(output), '\n')| ==>
               Split(Strip(output), '\n')[i] != "" && Trimmed(Split(Strip(output), '\n')[i])
    ensures Shuffle(Text.Join(Shuffle(output), '\n')) == Shuffle(output)
  {
    var s := Shuffle(output);
    var pieces := Split(Strip(output), '\n');
    NoNewlines(output);
    forall i | 0 <= i < |s|
      ensures s[i] != "" && Trimmed(s[i])
    {
      assert s[i] in multiset(pieces);
    }
    assert s != [] by {
      assert pieces[0] in multiset(s);
    }
    JoinEnds(s, '\n');
    StripTrimmed(Text.Join(s, '\n'));
    SplitJoin(s, '\n');
    SortOfSorted(s);
  }

  /** The reducer input is sorted and holds the lines of the last stage
      before it: the mapper's, or the combiner's when there is one. */
  lemma ReducerInput(mapper: Stage, combiner: Option<Stage>, env: Env, text: string)
    ensures Sorted(ReducerLines(mapper, combiner, env, text))
    ensures combiner.None? ==>
      multiset(ReducerLines(mapper, combiner, env, text)) == multiset(Split(Strip(mapper(env, text)), '\n'))
    ensures combiner.Some? ==>
      var combined := combiner.value(env, Text.Join(Shuffle(mapper(env, text)), '\n'));
      multiset(ReducerLines(mapper, combiner, env, text)) == multiset(Split(Strip(combined), '\n'))
  {
  }

  // ----------------------------------------------------------------- join

  /** The join shuffle: the two stripped mapper outputs joined by a newline,
      split into lines and sorted. */
  function JoinShuffle(activityOutput: string, profileOutput: string): seq<string> {
    SortLines(Split(Strip(activityOutput) + "\n" + Strip(profileOutput), '\n'))
  }

  /** The join reducer gets every line of both sides, sorted; a side that
      printed nothing still adds one empty line. */
  lemma JoinShuffleLines(activityOutput: string, profileOutput: string)
    ensures Sorted(JoinShuffle(activityOutput, profileOutput))
    ensures multiset(JoinShuffle(activityOutput, profileOutput))
         == multiset(Split(Strip(activityOutput), '\n')) + multiset(Split(Strip(profileOutput), '\n'))
    ensures |JoinShuffle(activityOutput, profileOutput)|
         == |Split(Strip(activityOutput), '\n')| + |Split(Strip(profileOutput), '\n')|
    ensures Strip(activityOutput) == [] || Strip(profileOutput) == [] ==> "" in JoinShuffle(activityOutput, profileOutput)
  {
    var a, p := Strip(activityOutput), Strip(profileOutput);
    assert a + "\n" + p == a + ['\n'] + p;
    SplitAround(a, p, '\n');
    var s := JoinShuffle(activityOutput, profileOutput);
    assert |s| == |multiset(s)|;
    assert |Split(a, '\n') + Split(p, '\n')| == |multiset(Split(a, '\n') + Split(p, '\n'))|;
    if a == [] {
      assert Split(a, '\n') == [""];
      assert "" in multiset(s);
    } else if p == [] {
      assert Split(p, '\n') == [""];
      assert "" in multiset(s);
    }
  }

  /** `run_join_job`: the output file's text, and the result, which is
      always true. */
  function RunJoinJob(activityMapper: Stage, profileMapper: Stage, reducer: Stage,
                      activityInput: string, profileInput: string, env: Env): (r: (string, bool))
    ensures r.1
    ensures var lines := JoinShuffle(activityMapper(env, activityInput), profileMapper(env, profileInput));
            r.0 == reducer(env, Text.Join(lines, '\n'))
  {
    var activityOutput := activityMapper(env, activityInput);
    var profileOutput := profileMapper(env, profileInput);
    var sortedLines := SortLines(Split(Strip(activityOutput) + "\n" + Strip(profileOutput), '\n'));
    (reducer(env, Text.Join(sortedLines, '\n')), true)
  }

  // -------------------------------------------------------- skew detection

  /** `run_skew_detection`: the profiler's output, written to the analysis
      file, and the skewed keys it lists joined by commas, or "" when that
      output is not a JSON document. `parse` stands for `json.loads`
      followed by `.get('skewed_keys', [])`. */
  function RunSkewDetection(profiler: Stage, parse: string -> Option<seq<string>>, input: string): (r: (string, string))
    ensures r.0 == profiler(map[], input)
    ensures parse(r.0).None? ==> r.1 == ""
    ensures parse(r.0).Some? ==> r.1 == Text.Join(parse(r.0).value, ',')
  {
    var output := profiler(map[], input);
    var keys := match parse(output) case Some(ks) => Text.Join(ks, ',') case None => "";
    (output, keys)
  }

  /** What the join mappers make of the key string: no skewed key when the
      profiler's output does not parse or lists nothing, and otherwise
      exactly the keys it lists, when none of them holds a comma. */
  lemma SkewedKeysHandOff(profiler: Stage, parse: string -> Option<seq<string>>, input: string)
    requires var p := parse(profiler(map[], input));
             p.Some? ==> forall i :: 0 <= i < |p.value| ==> ',' !in p.value[i]
    ensures var r := RunSkewDetection(profiler, parse, input);
            r.1 == "" ==> Join.SkewedSet(r.1) == {}
    ensures var r := RunSkewDetection(profiler, parse, input);
            r.1 != "" ==> parse(r.0).Some? && Join.SkewedSet(r.1) == set k | k in parse(r.0).value
  {
    var r := RunSkewDetection(profiler, parse, input);
    if parse(r.0).Some? {
      SkewedKeysReachJoin(parse(r.0).value);
    }
  }

  /** Keys without commas reach the join mappers intact: the mappers'
      skewed set is exactly the listed keys, unless the joined string is
      empty, which the mappers read as no skewed key. */
  lemma SkewedKeysReachJoin(keys: seq<string>)
    requires forall i :: 0 <= i < |keys| ==> ',' !in keys[i]
    ensures Text.Join(keys, ',') != "" ==> Join.SkewedSet(Text.Join(keys, ',')) == set k | k in keys
    ensures Text.Join(keys, ',') == "" ==> Join.SkewedSet(Text.Join(keys, ',')) == {}
  {
    if keys != [] {
      SplitJoin(keys, ',');
    }
  }

  /** The keys the profiler flags never hold a comma. */
  lemma ProfiledKeys(lines: seq<string>, factor: real)
    ensures var ks := Skew.Analysis(lines, factor).skewedKeys;
            forall i :: 0 <= i < |ks| ==> ',' !in ks[i]
  {
    var ks := Skew.Analysis(lines, factor).skewedKeys;
    forall i | 0 <= i < |ks|
      ensures ',' !in ks[i]
    {
      Skew.SkewedKeysExact(lines, factor, ks[i]);
      var es := Skew.KeyEntries(lines);
      var j :| 0 <= j < |es| && es[j].0 == ks[i];
      KeyHasNoComma(lines[j]);
    }
  }

  lemma KeyHasNoComma(line: string)
    ensures ',' !in Skew.SkewKey(line)
  {
    var key := Split(Strip(line), '\t')[0];
    if ',' in key {
      assert Skew.SkewKey(line) == Split(key, ',')[0];
    }
  }

  // ------------------------------------------------------------- workflow

  /** The `--job` choices. */
  datatype JobName = CleansingJob | AggregationJob | TrendingJob | JoinJob | AllJobs

  /** The scripts the workflow runs. */
  datatype Scripts = Scripts(
    cleansingMapper: Stage, cleansingReducer: Stage,
    aggregationMapper: Stage, aggregationReducer: Stage,
    trendingMapper: Stage, trendingCombiner: Stage, trendingReducer: Stage,
    joinActivityMapper: Stage, joinProfileMapper: Stage, joinReducer: Stage,
    skewDetection: Stage, parseSkewedKeys: string -> Option<seq<string>>)

  /** What the workflow reads: whether the input directory exists, the two
      data files in it, its files in listing order (the input of a single
      aggregation or trending job) and its `user_activity.txt` (the input of
      a single join job). */
  datatype Inputs = Inputs(inputDirExists: bool, socialMediaLogs: string, userProfiles: string,
                           inputDir: seq<string>, inputDirUserActivity: string)

  /** The output files written, None for those the run does not write. */
  datatype Outputs = Outputs(cleansed: Option<string>, userActivity: Option<string>, trending: Option<string>,
                             skewAnalysis: Option<string>, joined: Option<string>)

  const NoOutputs := Outputs(None, None, None, None, None)

  /** The environment of the trending job: the threshold is computed from
      the data. */
  const TrendingEnv: Env := map["TRENDING_THRESHOLD" := "-1"]

  function Runs(job: JobName, single: JobName): bool {
    job == single || job == AllJobs
  }

  /** `main` after argument parsing: the exit code and the files written. */
  function Workflow(job: JobName, scripts: Scripts, inputs: Inputs): (r: (int, Outputs))
    ensures r.0 == 0 <==> inputs.inputDirExists
    ensures r.0 == 0 || r.0 == 1
    ensures r.1.cleansed.Some? <==> inputs.inputDirExists && Runs(job, CleansingJob)
    ensures r.1.userActivity.Some? <==> inputs.inputDirExists && Runs(job, AggregationJob)
    ensures r.1.trending.Some? <==> inputs.inputDirExists && Runs(job, TrendingJob)
    ensures r.1.skewAnalysis.Some? <==> inputs.inputDirExists && job == AllJobs
    ensures r.1.joined.Some? <==> inputs.inputDirExists && Runs(job, JoinJob)
  {
    if !inputs.inputDirExists then (1, NoOutputs)
    else
      var cleansed := if Runs(job, CleansingJob)
        then Some(JobOutput(scripts.cleansingMapper, scripts.cleansingReducer, File(inputs.socialMediaLogs), None, map[]))
        else None;
      var stageInput := if job == AllJobs then File(cleansed.value) else Directory(inputs.inputDir);
      var userActivity := if Runs(job, AggregationJob)
        then Some(JobOutput(scripts.aggregationMapper, scripts.aggregationReducer, stageInput, None, map[]))
        else None;
      var trending := if Runs(job, TrendingJob)
        then Some(JobOutput(scripts.trendingMapper, scripts.trendingReducer, stageInput, Some(scripts.trendingCombiner), TrendingEnv))
        else None;
      var skew := if job == AllJobs
        then Some(RunSkewDetection(scripts.skewDetection, scripts.parseSkewedKeys, userActivity.value))
        else None;
      var skewedKeys := if job == AllJobs then skew.value.1 else "";
      var activityInput := if job == AllJobs then userActivity.value else inputs.inputDirUserActivity;
      var joined := if Runs(job, JoinJob)
        then Some(RunJoinJob(scripts.joinActivityMapper, scripts.joinProfileMapper, scripts.joinReducer,
                             activityInput, inputs.userProfiles, map["skewed.keys" := skewedKeys]).0)
        else None;
      (0, Outputs(cleansed, userActivity, trending, if job == AllJobs then Some(skew.value.0) else None, joined))
  }

  /** `main`: each requested job runs while `success` holds; since every
      job reports success, every requested job runs and the exit code is 0
      whenever the input directory exists. */
  method RunWorkflow(job: JobName, scripts: Scripts, inputs: Inputs) returns (code: int, outputs: Outputs)
    ensures (code, outputs) == Workflow(job, scripts, inputs)
  {
    if !inputs.inputDirExists {
      return 1, NoOutputs;
    }
    outputs := NoOutputs;
    var success := true;
    if Runs(job, CleansingJob) {
      var output, ok := RunMapReduceJob(scripts.cleansingMapper, scripts.cleansingReducer,
                                        File(inputs.socialMediaLogs), None, map[]);
      success := success && ok;
      outputs := outputs.(cleansed := Some(output));
    }
    if Runs(job, AggregationJob) && success {
      var input := if job == AllJobs then File(outputs.cleansed.value) else Directory(inputs.inputDir);
      var output, ok := RunMapReduceJob(scripts.aggregationMapper, scripts.aggregationReducer, input, None, map[]);
      success := success && ok;
      outputs := outputs.(userActivity := Some(output));
    }
    if Runs(job, TrendingJob) && success {
      var input := if job == AllJobs then File(outputs.cleansed.value) else Directory(inputs.inputDir);
      var output, ok := RunMapReduceJob(scripts.trendingMapper, scripts.trendingReducer, input,
                                        Some(scripts.trendingCombiner), TrendingEnv);
      success := success && ok;
      outputs := outputs.(trending := Some(output));
    }
    if Runs(job, JoinJob) && success {
      var skewedKeys := "";
      if job == AllJobs {
        var skew := RunSkewDetection(scripts.skewDetection, scripts.parseSkewedKeys, outputs.userActivity.value);
        outputs := outputs.(skewAnalysis := Some(skew.0));
        skewedKeys := skew.1;
      }
      var activityInput := if job == AllJobs then outputs.userActivity.value else inputs.inputDirUserActivity;
      var result := RunJoinJob(scripts.joinActivityMapper, scripts.joinProfileMapper, scripts.joinReducer,
                               activityInput, inputs.userProfiles, map["skewed.keys" := skewedKeys]);
      success := success && result.1;
      outputs := outputs.(joined := Some(result.0));
    }
    if success {
      code := 0;
    } else {
      code := 1;
    }
  }

  /** In a full run each job reads what the one before it wrote: the
      aggregation and trending jobs the cleansed data, the profiler and the
      activity side of the join the user activity. */
  lemma AllChains(scripts: Scripts, inputs: Inputs)
    requires inputs.inputDirExists
    ensures var outs := Workflow(AllJobs, scripts, inputs).1;
      && outs.userActivity == Some(JobOutput(scripts.aggregationMapper, scripts.aggregationReducer,
                                            File(outs.cleansed.value), None, map[]))
      && outs.trending == Some(JobOutput(scripts.trendingMapper, scripts.trendingReducer,
                                        File(outs.cleansed.value), Some(scripts.trendingCombiner), TrendingEnv))
      && outs.skewAnalysis == Some(scripts.skewDetection(map[], outs.userActivity.value))
      && var keys := RunSkewDetection(scripts.skewDetection, scripts.parseSkewedKeys, outs.userActivity.value).1;
         outs.joined == Some(RunJoinJob(scripts.joinActivityMapper, scripts.joinProfileMapper, scripts.joinReducer,
                                        outs.userActivity.value, inputs.userProfiles, map["skewed.keys" := keys]).0)
  {
  }
}
