/** The salted reduce-side join of user activity with user profiles: two
    mappers tag their records `A:` and `P:` and copy the records of hot keys
    under ten salted keys `id_0` .. `id_9`; the reducer groups consecutive
    records by the key before the first `_` and emits a group's last profile
    and last activity when it has both. */
module Join {
  import opened Wrappers
  import opened Text
  import opened Numbers

  /** The number of salted copies of a hot key's records. */
  const NumSalts: nat := 10

  /** The hot keys from the `skewed.keys` setting: its comma-separated
      pieces, or none when the setting is empty. */
  function SkewedSet(setting: string): (r: set<string>)
    ensures setting == "" ==> r == {}
    ensures setting != "" ==> forall k :: k in r <==> k in Split(setting, ',')
  {
    if setting == "" then {} else set k | k in Split(setting, ',')
  }

  /** `f"{key}_{i}"`. */
  function SaltedKey(key: string, i: nat): string {
    key + "_" + FormatNat(i)
  }

  /** The records for one key and value: ten salted copies for a hot key,
      one record otherwise. */
  function Salt(key: string, value: string, skewed: set<string>): (r: seq<string>)
    ensures |r| == if key in skewed then NumSalts else 1
  {
    if key in skewed then seq(NumSalts, i requires 0 <= i < NumSalts => SaltedKey(key, i) + "\t" + value)
    else [key + "\t" + value]
  }

  // --------------------------------------------------------- activity side

  /** The activity mapper on one line: `A:` and everything after the first
      tab, under the user id; nothing for a line without a tab. */
  function ActivityRecords(line: string, skewed: set<string>): (r: seq<string>)
    ensures r != [] <==> '\t' in Strip(line)
    ensures |r| <= NumSalts
  {
    var fields := SplitOnce(Strip(line), '\t');
    if |fields| >= 2 then Salt(fields[0], "A:" + fields[1], skewed) else []
  }

  /** The activity mapper on all lines: at most ten records a line. */
  function ActivityMapper(lines: seq<string>, skewed: set<string>): (r: seq<string>)
    ensures |r| <= NumSalts * |lines|
  {
    if lines == [] then []
    else ActivityMapper(lines[..|lines| - 1], skewed) + ActivityRecords(lines[|lines| - 1], skewed)
  }

  /** A stripped line without a tab yields nothing; one with a tab yields
      the records of its first field with `A:` and the rest, inner tabs kept. */
  lemma ActivityLine(line: string, skewed: set<string>)
    ensures '\t' !in Strip(line) ==> ActivityRecords(line, skewed) == []
    ensures '\t' in Strip(line) ==>
              var i := IndexOf(Strip(line), '\t');
              ActivityRecords(line, skewed) == Salt(Strip(line)[..i], "A:" + Strip(line)[i + 1..], skewed)
  {
    var s := Strip(line);
    var fields := SplitOnce(s, '\t');
    if '\t' in s {
      var i := IndexOf(s, '\t');
      IndexOfAbsent(s, '\t');
      SplitHead(s, '\t');
      assert fields[0] == s[..i];
      assert s[..i] + ['\t'] + fields[1] == s;
      assert fields[1] == s[i + 1..];
    }
  }

  // ---------------------------------------------------------- profile side

  /** The profile mapper on one line: the key is the first tab field up to
      its first comma, and the value `P:` and the whole stripped line. */
  function ProfileRecords(line: string, skewed: set<string>): (r: seq<string>)
    ensures 1 <= |r| <= NumSalts
  {
    var fields := SplitOnce(Strip(line), '\t');
    var userId := Split(fields[0], ',')[0];
    var profile := fields[0] + (if |fields| > 1 then "\t" + fields[1] else "");
    Salt(userId, "P:" + profile, skewed)
  }

  /** The profile mapper on all lines: every line yields one to ten records. */
  function ProfileMapper(lines: seq<string>, skewed: set<string>): (r: seq<string>)
    ensures |lines| <= |r| <= NumSalts * |lines|
  {
    if lines == [] then []
    else ProfileMapper(lines[..|lines| - 1], skewed) + ProfileRecords(lines[|lines| - 1], skewed)
  }

  /** Every line yields records, and the profile value keeps the id: it is
      the stripped line itself. */
  lemma ProfileLine(line: string, skewed: set<string>)
    ensures var key := Split(SplitOnce(Strip(line), '\t')[0], ',')[0];
            ProfileRecords(line, skewed) == Salt(key, "P:" + Strip(line), skewed)
  {
    Rejoin(Strip(line));
  }

  /** Putting back the tab a one-split removed gives the text again. */
  lemma Rejoin(s: string)
    ensures var fields := SplitOnce(s, '\t');
            fields[0] + (if |fields| > 1 then "\t" + fields[1] else "") == s
  {
    var fields := SplitOnce(s, '\t');
    if |fields| > 1 {
      assert "\t" == ['\t'];
      assert fields[0] + (['\t'] + fields[1]) == fields[0] + ['\t'] + fields[1];
    } else {
      assert fields[0] + "" == fields[0];
    }
  }

  /** A line `id,rest` without a tab, like `u1,Alice,NYC`, becomes
      `id<TAB>P:id,rest` when id is not hot. */
  lemma ProfileWithoutTab(id: string, rest: string, skewed: set<string>)
    requires ',' !in id && '\t' !in id && '\t' !in rest
    requires Trimmed(id + "," + rest)
    requires id !in skewed
    ensures ProfileRecords(id + "," + rest, skewed) == [id + "\tP:" + (id + "," + rest)]
  {
    var line := id + "," + rest;
    StripTrimmed(line);
    assert '\t' !in line;
    assert line == id + [','] + rest;
    SplitFirst(id, rest, ',');
    var fields := SplitOnce(Strip(line), '\t');
    assert fields == [line];
    var userId := Split(fields[0], ',')[0];
    assert userId == id;
    ProfileLine(line, skewed);
    assert Salt(id, "P:" + line, skewed) == [id + "\t" + ("P:" + line)];
    assert id + "\t" + ("P:" + line) == id + "\tP:" + line;
  }

  // --------------------------------------------------------------- reducer

  /** The grouping key: the record key up to its first `_`. */
  function GroupKey(key: string): (r: string)
    ensures r <= key && '_' !in r
    ensures |r| < |key| ==> key[|r|] == '_'
  {
    SplitHead(key, '_');
    IndexOfAbsent(key, '_');
    if '_' in key then Split(key, '_')[0] else key
  }

  /** Salting is undone by the grouping key for ids without `_`; and any id
      that continues with `_` falls into the same group as its prefix. */
  lemma SaltRoundTrip(key: string, rest: string)
    requires '_' !in key
    ensures GroupKey(key) == key
    ensures GroupKey(key + "_" + rest) == key
    ensures forall i: nat :: GroupKey(SaltedKey(key, i)) == key
  {
    SplitFirst(key, rest, '_');
    forall i: nat ensures GroupKey(SaltedKey(key, i)) == key {
      SplitFirst(key, FormatNat(i), '_');
    }
  }

  /** `user_id, tagged_data = line.strip().split('\t', 1)` with the salt
      removed; None for a line without a tab. */
  function Record(line: string): Option<(string, string)> {
    var parts := SplitOnce(Strip(line), '\t');
    if |parts| == 2 then Some((GroupKey(parts[0]), parts[1])) else None
  }

  /** `tagged_data[2:]`. */
  function Payload(tagged: string): string {
    if |tagged| >= 2 then tagged[2..] else ""
  }

  /** The reducer between lines: the current group, its profile and
      activity so far, and the lines printed. */
  datatype JoinState = JoinState(current: Option<string>, profile: Option<string>,
                                 activity: Option<string>, out: seq<string>)

  /** What closing the current group prints. */
  function Emit(st: JoinState): seq<string> {
    if st.current.Some? && st.profile.Some? && st.activity.Some? then
      [st.current.value + "\t" + st.profile.value + "\t" + st.activity.value]
    else []
  }

  /** One record: a new group closes the current one; then a `P` or `A`
      tag stores the payload, overwriting the previous one. */
  function Store(st: JoinState, user: string, tagged: string): JoinState {
    var st1 := if st.current != Some(user) then JoinState(Some(user), None, None, st.out + Emit(st)) else st;
    if tagged == [] then st1
    else if tagged[0] == 'P' then st1.(profile := Some(Payload(tagged)))
    else if tagged[0] == 'A' then st1.(activity := Some(Payload(tagged)))
    else st1
  }

  /** One line; a line without a tab leaves the state alone. */
  function JoinStep(st: JoinState, line: string): JoinState {
    match Record(line)
    case None => st
    case Some((user, tagged)) => Store(st, user, tagged)
  }

  function JoinFold(lines: seq<string>): JoinState {
    if lines == [] then JoinState(None, None, None, [])
    else JoinStep(JoinFold(lines[..|lines| - 1]), lines[|lines| - 1])
  }

  /** The reducer's output: the loop, then the last group. */
  function JoinOutput(lines: seq<string>): seq<string> {
    var st := JoinFold(lines);
    st.out + Emit(st)
  }

  lemma JoinFoldPrefix(lines: seq<string>, i: nat)
    requires i < |lines|
    ensures JoinFold(lines[..i + 1]) == JoinStep(JoinFold(lines[..i]), lines[i])
  {
    assert lines[..i + 1][..i] == lines[..i];
  }

  /** The join reducer script. */
  method RunJoinReducer(lines: seq<string>) returns (out: seq<string>)
    ensures out == JoinOutput(lines)
  {
    var currentUser: Option<string> := None;
    var profileData: Option<string> := None;
    var activityData: Option<string> := None;
    out := [];
    for i := 0 to |lines|
      invariant JoinFold(lines[..i]) == JoinState(currentUser, profileData, activityData, out)
    {
      JoinFoldPrefix(lines, i);
      currentUser, profileData, activityData, out := JoinLine(currentUser, profileData, activityData, out, lines[i]);
    }
    assert lines[..|lines|] == lines;
    if currentUser.Some? && profileData.Some? && activityData.Some? {
      out := out + [currentUser.value + "\t" + profileData.value + "\t" + activityData.value];
    }
  }

  /** The body of the reducer's loop. */
  method JoinLine(currentUser: Option<string>, profileData: Option<string>, activityData: Option<string>,
                  out: seq<string>, line: string)
    returns (currentUser': Option<string>, profileData': Option<string>, activityData': Option<string>,
             out': seq<string>)
    ensures JoinState(currentUser', profileData', activityData', out')
         == JoinStep(JoinState(currentUser, profileData, activityData, out), line)
  {
    currentUser', profileData', activityData', out' := currentUser, profileData, activityData, out;
    var record := ReadRecord(line);
    if record.None? {
      return;
    }
    var userId, taggedData := record.value.0, record.value.1;
    currentUser', profileData', activityData', out' :=
      StoreRecord(currentUser, profileData, activityData, out, userId, taggedData);
  }

  /** The split of a line and the removal of the salt. */
  method ReadRecord(line: string) returns (record: Option<(string, string)>)
    ensures record == Record(line)
  {
    var parts := SplitOnce(Strip(line), '\t');
    if |parts| != 2 {
      return None;
    }
    var userId, taggedData := parts[0], parts[1];
    if '_' in userId {
      userId := Split(userId, '_')[0];
    }
    return Some((userId, taggedData));
  }

  /** A record: a new group prints the current one if it is complete and
      resets the state; then the tag decides which payload is stored. */
  method StoreRecord(currentUser: Option<string>, profileData: Option<string>, activityData: Option<string>,
                     out: seq<string>, userId: string, taggedData: string)
    returns (currentUser': Option<string>, profileData': Option<string>, activityData': Option<string>,
             out': seq<string>)
    ensures JoinState(currentUser', profileData', activityData', out')
         == Store(JoinState(currentUser, profileData, activityData, out), userId, taggedData)
  {
    currentUser', profileData', activityData', out' := currentUser, profileData, activityData, out;
    if currentUser != Some(userId) {
      if currentUser.Some? && profileData.Some? && activityData.Some? {
        out' := out + [currentUser.value + "\t" + profileData.value + "\t" + activityData.value];
      }
      currentUser', profileData', activityData' := Some(userId), None, None;
    }
    if taggedData == [] {
      return;
    }
    var tag := taggedData[0];
    var data := if |taggedData| >= 2 then taggedData[2..] else "";
    if tag == 'P' {
      profileData' := Some(data);
    } else if tag == 'A' {
      activityData' := Some(data);
    }
  }

  // ------------------------------------------------------ the inner join

  /** The (group key, tagged value) records of the lines with a tab. */
  function Records(lines: seq<string>): seq<(string, string)> {
    if lines == [] then []
    else Records(lines[..|lines| - 1]) + match Record(lines[|lines| - 1]) case Some(r) => [r] case None => []
  }

  /** The payload of the last record tagged c, if any. */
  function LastTagged(run: seq<(string, string)>, c: char): Option<string> {
    if run == [] then None
    else
      var t := run[|run| - 1].1;
      if t != [] && t[0] == c then Some(Payload(t)) else LastTagged(run[..|run| - 1], c)
  }

  /** The maximal runs of records with equal group keys, in order. */
  function Runs(rs: seq<(string, string)>): (runs: seq<seq<(string, string)>>)
    ensures forall i :: 0 <= i < |runs| ==> runs[i] != []
    ensures rs == [] <==> runs == []
  {
    if rs == [] then []
    else
      var runs := Runs(rs[..|rs| - 1]);
      var r := rs[|rs| - 1];
      if runs != [] && runs[|runs| - 1][0].0 == r.0 then runs[..|runs| - 1] + [runs[|runs| - 1] + [r]]
      else runs + [[r]]
  }

  /** Whether r continues the last run. */
  predicate Continues(runs: seq<seq<(string, string)>>, r: (string, string))
    requires forall i :: 0 <= i < |runs| ==> runs[i] != []
  {
    runs != [] && runs[|runs| - 1][0].0 == r.0
  }

  lemma RunsSnoc(rs: seq<(string, string)>, r: (string, string))
    ensures var runs := Runs(rs);
            var n := |runs| - 1;
            Runs(rs + [r]) == if Continues(runs, r) then runs[..n] + [runs[n] + [r]] else runs + [[r]]
  {
    assert (rs + [r])[..|rs|] == rs;
  }

  function Flatten(runs: seq<seq<(string, string)>>): seq<(string, string)> {
    if runs == [] then [] else Flatten(runs[..|runs| - 1]) + runs[|runs| - 1]
  }

  lemma FlattenSnoc(runs: seq<seq<(string, string)>>, x: seq<(string, string)>)
    ensures Flatten(runs + [x]) == Flatten(runs) + x
  {
    assert (runs + [x])[..|runs|] == runs;
  }

  /** The runs split the records exactly. */
  lemma {:induction false} RunsFlatten(rs: seq<(string, string)>)
    ensures Flatten(Runs(rs)) == rs
  {
    if rs != [] {
      var init, r := rs[..|rs| - 1], rs[|rs| - 1];
      assert rs == init + [r];
      RunsFlatten(init);
      RunsSnoc(init, r);
      var runs: seq<seq<(string, string)>> := Runs(init);
      var n := |runs| - 1;
      if Continues(runs, r) {
        assert runs == runs[..n] + [runs[n]];
        FlattenSnoc(runs[..n], runs[n]);
        FlattenSnoc(runs[..n], runs[n] + [r]);
      } else {
        FlattenSnoc(runs, [r]);
      }
    }
  }

  /** Every run shares one key. */
  predicate Uniform(runs: seq<seq<(string, string)>>)
    requires forall i :: 0 <= i < |runs| ==> runs[i] != []
  {
    forall i, j :: 0 <= i < |runs| && 0 <= j < |runs[i]| ==> runs[i][j].0 == runs[i][0].0
  }

  /** Neighbouring runs have different keys. */
  predicate Alternating(runs: seq<seq<(string, string)>>)
    requires forall i :: 0 <= i < |runs| ==> runs[i] != []
  {
    forall i :: 0 < i < |runs| ==> runs[i - 1][0].0 != runs[i][0].0
  }

  /** Each run shares one key, and neighbouring runs have different keys:
      the runs are maximal. */
  lemma {:induction false} RunsKeys(rs: seq<(string, string)>)
    ensures Uniform(Runs(rs)) && Alternating(Runs(rs))
  {
    if rs != [] {
      var init, r := rs[..|rs| - 1], rs[|rs| - 1];
      assert rs == init + [r];
      RunsKeys(init);
      RunsSnoc(init, r);
      var runs: seq<seq<(string, string)>> := Runs(init);
      if Continues(runs, r) {
        ExtendKeys(runs, r);
      } else {
        AppendKeys(runs, r);
      }
    }
  }

  lemma ExtendKeys(runs: seq<seq<(string, string)>>, r: (string, string))
    requires forall i :: 0 <= i < |runs| ==> runs[i] != []
    requires Uniform(runs) && Alternating(runs) && Continues(runs, r)
    ensures var n := |runs| - 1;
            var runs' := runs[..n] + [runs[n] + [r]];
            Uniform(runs') && Alternating(runs')
  {
    var n := |runs| - 1;
    var runs' := runs[..n] + [runs[n] + [r]];
    assert forall i :: 0 <= i < n ==> runs'[i] == runs[i];
    assert runs'[n][0] == runs[n][0];
    forall i, j | 0 <= i < |runs'| && 0 <= j < |runs'[i]| ensures runs'[i][j].0 == runs'[i][0].0 {
      if i == n && j == |runs[n]| {
        assert runs'[i][j] == r;
      } else if i == n {
        assert runs'[i][j] == runs[n][j];
      }
    }
  }

  lemma AppendKeys(runs: seq<seq<(string, string)>>, r: (string, string))
    requires forall i :: 0 <= i < |runs| ==> runs[i] != []
    requires Uniform(runs) && Alternating(runs) && !Continues(runs, r)
    ensures Uniform(runs + [[r]]) && Alternating(runs + [[r]])
  {
    var runs' := runs + [[r]];
    assert forall i :: 0 <= i < |runs| ==> runs'[i] == runs[i];
  }

  /** What one group prints: its key, last profile and last activity, when
      it has both. */
  function JoinRun(run: seq<(string, string)>): seq<string>
    requires run != []
  {
    var p := LastTagged(run, 'P');
    var a := LastTagged(run, 'A');
    if p.Some? && a.Some? then [run[0].0 + "\t" + p.value + "\t" + a.value] else []
  }

  function JoinRuns(runs: seq<seq<(string, string)>>): seq<string>
    requires forall i :: 0 <= i < |runs| ==> runs[i] != []
  {
    if runs == [] then [] else JoinRuns(runs[..|runs| - 1]) + JoinRun(runs[|runs| - 1])
  }

  /** The state the reducer is in after the runs: the last run open, the
      others printed. */
  function OpenState(runs: seq<seq<(string, string)>>): JoinState
    requires forall i :: 0 <= i < |runs| ==> runs[i] != []
  {
    if runs == [] then JoinState(None, None, None, [])
    else
      var last := runs[|runs| - 1];
      JoinState(Some(last[0].0), LastTagged(last, 'P'), LastTagged(last, 'A'), JoinRuns(runs[..|runs| - 1]))
  }

  /** Closing the open run prints what the runs print. */
  lemma CloseOpen(runs: seq<seq<(string, string)>>)
    requires forall i :: 0 <= i < |runs| ==> runs[i] != []
    ensures OpenState(runs).out + Emit(OpenState(runs)) == JoinRuns(runs)
  {
  }

  lemma RecordsSnoc(lines: seq<string>)
    requires lines != []
    ensures Records(lines) == Records(lines[..|lines| - 1])
              + match Record(lines[|lines| - 1]) case Some(r) => [r] case None => []
  {
  }

  /** A record continuing the open run only updates its tags. */
  lemma StoreContinue(runs: seq<seq<(string, string)>>, r: (string, string))
    requires forall i :: 0 <= i < |runs| ==> runs[i] != []
    requires Continues(runs, r)
    ensures var n := |runs| - 1;
            Store(OpenState(runs), r.0, r.1) == OpenState(runs[..n] + [runs[n] + [r]])
  {
    var n := |runs| - 1;
    var runs' := runs[..n] + [runs[n] + [r]];
    assert runs'[..n] == runs[..n];
    assert runs'[n] == runs[n] + [r];
    LastWins(runs[n], r, 'P');
    LastWins(runs[n], r, 'A');
  }

  /** A record with another key closes the open run and opens its own. */
  lemma StoreNew(runs: seq<seq<(string, string)>>, r: (string, string))
    requires forall i :: 0 <= i < |runs| ==> runs[i] != []
    requires !Continues(runs, r)
    ensures Store(OpenState(runs), r.0, r.1) == OpenState(runs + [[r]])
  {
    var runs' := runs + [[r]];
    assert runs'[..|runs|] == runs;
    CloseOpen(runs);
    LastWins([], r, 'P');
    LastWins([], r, 'A');
    assert [] + [r] == [r];
  }

  /** The reducer's state after the lines is the open state of the runs of
      their records. */
  lemma {:induction false} FoldRuns(lines: seq<string>)
    ensures JoinFold(lines) == OpenState(Runs(Records(lines)))
  {
    if lines != [] {
      var init := lines[..|lines| - 1];
      FoldRuns(init);
      RecordsSnoc(lines);
      match Record(lines[|lines| - 1])
      case None =>
        assert Records(lines) == Records(init);
      case Some(r) =>
        var rs := Records(init);
        assert Records(lines) == rs + [r];
        RunsSnoc(rs, r);
        var runs: seq<seq<(string, string)>> := Runs(rs);
        if Continues(runs, r) {
          StoreContinue(runs, r);
        } else {
          StoreNew(runs, r);
        }
    }
  }

  /** The reducer prints, for each maximal run of records sharing a group
      key, that key with the run's last profile and last activity when the
      run has both, and nothing else: a strict inner join. */
  lemma JoinSpec(lines: seq<string>)
    ensures JoinOutput(lines) == JoinRuns(Runs(Records(lines)))
  {
    FoldRuns(lines);
    CloseOpen(Runs(Records(lines)));
  }

  /** A group prints at most one line. */
  lemma {:induction false} AtMostOnePerRun(runs: seq<seq<(string, string)>>)
    requires forall i :: 0 <= i < |runs| ==> runs[i] != []
    ensures |JoinRuns(runs)| <= |runs|
  {
    if runs != [] {
      AtMostOnePerRun(runs[..|runs| - 1]);
    }
  }

  /** A later profile or activity in a group overrides an earlier one;
      records with any other tag change neither. */
  lemma LastWins(run: seq<(string, string)>, r: (string, string), c: char)
    ensures LastTagged(run + [r], c) == if r.1 != [] && r.1[0] == c then Some(Payload(r.1)) else LastTagged(run, c)
  {
    assert (run + [r])[..|run|] == run;
  }

  /** Records that all share one group key, such as the salted copies of a
      hot key, form one group. */
  lemma OneGroup(rs: seq<(string, string)>, k: string)
    requires rs != []
    requires forall i :: 0 <= i < |rs| ==> rs[i].0 == k
    ensures Runs(rs) == [rs]
  {
    var init, last := rs[..|rs| - 1], rs[|rs| - 1];
    FrontLast(rs);
    if |rs| > 1 {
      assert forall i :: 0 <= i < |init| ==> init[i] == rs[i];
      OneGroup(init, k);
      ExtendOneRun(init, last);
    } else {
      assert init == [];
      SingleRun(last);
    }
  }

  lemma ExtendOneRun(run: seq<(string, string)>, r: (string, string))
    requires run != [] && Runs(run) == [run] && run[0].0 == r.0
    ensures Runs(run + [r]) == [run + [r]]
  {
    RunsSnoc(run, r);
    var runs: seq<seq<(string, string)>> := Runs(run);
    assert Continues(runs, r);
    assert runs[..0] == [];
  }

  lemma SingleRun(r: (string, string))
    ensures Runs([r]) == [[r]]
  {
    RunsSnoc([], r);
    assert [] + [r] == [r];
  }

  /** An activity record followed by a profile record of one id, such as
      `u1<TAB>A:posts:3,likes:5,comments:0,shares:1` and
      `u1<TAB>P:u1,Alice,NYC`, join to one line `id<TAB>profile<TAB>activity`. */
  lemma JoinPair(lines: seq<string>, id: string, profile: string, activity: string)
    requires Records(lines) == [(id, "A:" + activity), (id, "P:" + profile)]
    ensures JoinOutput(lines) == [id + "\t" + profile + "\t" + activity]
  {
    var rs := Records(lines);
    JoinSpec(lines);
    OneGroup(rs, id);
    PairRun(id, profile, activity);
    assert [rs][..0] == [];
  }

  lemma PairRun(id: string, profile: string, activity: string)
    ensures JoinRun([(id, "A:" + activity), (id, "P:" + profile)]) == [id + "\t" + profile + "\t" + activity]
  {
    var a, p := (id, "A:" + activity), (id, "P:" + profile);
    assert [a, p] == [a] + [p];
    assert [a] == [] + [a];
    LastWins([a], p, 'P');
    LastWins([a], p, 'A');
    LastWins([], a, 'P');
    LastWins([], a, 'A');
    assert Payload(a.1) == activity;
    assert Payload(p.1) == profile;
  }

  /** A line `key<TAB>tagged` (stripped, key without tab) is read as the
      group of key with its tagged value. */
  lemma RecordOfLine(key: string, tagged: string)
    requires '\t' !in key
    requires Trimmed(key + "\t" + tagged)
    ensures Record(key + "\t" + tagged) == Some((GroupKey(key), tagged))
  {
    StripTrimmed(key + "\t" + tagged);
    SplitOnceAt(key, tagged, '\t');
  }

  /** Every record the mappers emit for a key, salted or not, is read back
      by the reducer under that key with its tagged value: the salted copies
      of a hot key meet in the key's group. */
  lemma SaltedRecordsRead(key: string, value: string, skewed: set<string>)
    requires '_' !in key && '\t' !in key
    requires key != [] && !IsSpace(key[0])
    requires value != [] && !IsSpace(value[|value| - 1])
    ensures forall i :: 0 <= i < |Salt(key, value, skewed)| ==> Record(Salt(key, value, skewed)[i]) == Some((key, value))
  {
    var r := Salt(key, value, skewed);
    SaltRoundTrip(key, "");
    forall i | 0 <= i < |r| ensures Record(r[i]) == Some((key, value)) {
      var k := if key in skewed then SaltedKey(key, i) else key;
      assert r[i] == k + "\t" + value;
      if key in skewed {
        FormatIntChars(i);
        assert FormatInt(i) == FormatNat(i);
        assert '\t' !in FormatNat(i);
      }
      assert '\t' !in k;
      var line := k + "\t" + value;
      assert line[0] == key[0];
      assert line[|line| - 1] == value[|value| - 1];
      RecordOfLine(k, value);
    }
  }
}
