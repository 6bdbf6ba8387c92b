/** The cleansing job: a mapper that keeps the well-formed activity records
    (five tab fields, a real `YYYY-MM-DDThh:mm:ss[Z]` timestamp, JSON
    metadata), reorders their fields and counts what it discards, and a
    reducer that only strips each line. */
module Cleansing {
  import opened Wrappers
  import opened Text
  import opened Numbers

  // ------------------------------------------------------------ timestamps

  /** The Gregorian leap-year rule used by Python's datetime. */
  predicate LeapYear(y: int) {
    y % 4 == 0 && (y % 100 != 0 || y % 400 == 0)
  }

  function DaysInMonth(y: int, m: int): (r: int)
    requires 1 <= m <= 12
    ensures 28 <= r <= 31
    ensures m == 2 ==> (r == 29 <==> LeapYear(y))
  {
    if m == 2 then (if LeapYear(y) then 29 else 28)
    else if m == 4 || m == 6 || m == 9 || m == 11 then 30
    else 31
  }

  datatype DateTime = DateTime(year: nat, month: nat, day: nat, hour: nat, minute: nat, second: nat)

  /** What datetime accepts: years 1-9999, a day that exists in its month,
      and a time of day with seconds below 60. */
  predicate RealDateTime(dt: DateTime) {
    && 1 <= dt.year <= 9999
    && 1 <= dt.month <= 12
    && 1 <= dt.day <= DaysInMonth(dt.year, dt.month)
    && dt.hour < 24 && dt.minute < 60 && dt.second < 60
  }

  /** The six digit groups of a 19-character `YYYY-MM-DDThh:mm:ss` text. */
  function Groups(t: string): seq<string>
    requires |t| >= 19
  {
    [t[0..4], t[5..7], t[8..10], t[11..13], t[14..16], t[17..19]]
  }

  /** The groups put back together with their separators. */
  function Assemble(g: seq<string>): string
    requires |g| == 6
  {
    g[0] + "-" + g[1] + "-" + g[2] + "T" + g[3] + ":" + g[4] + ":" + g[5]
  }

  predicate GroupWidths(g: seq<string>) {
    |g| == 6 && |g[0]| == 4 && forall i :: 1 <= i < 6 ==> |g[i]| == 2
  }

  predicate DigitGroups(g: seq<string>) {
    forall i :: 0 <= i < |g| ==> AllDigits(g[i])
  }

  /** The separators of the pattern sit at their places. */
  predicate Separators(t: string) {
    |t| >= 19 && t[4] == '-' && t[7] == '-' && t[10] == 'T' && t[13] == ':' && t[16] == ':'
  }

  /** The pattern `^\d{4}-\d{2}-\d{2}T\d{2}:\d{2}:\d{2}Z?$`. */
  predicate MatchesPattern(ts: string) {
    && (|ts| == 19 || (|ts| == 20 && ts[19] == 'Z'))
    && Separators(ts)
    && DigitGroups(Groups(ts))
  }

  /** The timestamp without the one trailing 'Z' the validator removes. */
  function DropZ(ts: string): (r: string)
    ensures |r| <= |ts| && r == ts[..|r|]
  {
    if |ts| > 0 && ts[|ts| - 1] == 'Z' then ts[..|ts| - 1] else ts
  }

  /** `datetime.strptime(t, '%Y-%m-%dT%H:%M:%S')` on a text the pattern
      already admitted: the fields, when they form a real date and time. */
  function Strptime(t: string): Option<DateTime> {
    if |t| != 19 || !Separators(t) || !DigitGroups(Groups(t)) then None
    else
      var g := Groups(t);
      var dt := DateTime(DigitsValue(g[0]), DigitsValue(g[1]), DigitsValue(g[2]),
                         DigitsValue(g[3]), DigitsValue(g[4]), DigitsValue(g[5]));
      if RealDateTime(dt) then Some(dt) else None
  }

  /** `validate_timestamp`: the pattern, then strptime on the text without
      its trailing 'Z'. */
  predicate ValidTimestamp(ts: string) {
    MatchesPattern(ts) && Strptime(DropZ(ts)).Some?
  }

  /** The canonical `YYYY-MM-DDThh:mm:ss` text of a date and time. */
  function FormatTimestamp(dt: DateTime): string
    requires RealDateTime(dt)
  {
    Assemble([FormatPadded(dt.year, 4), FormatPadded(dt.month, 2), FormatPadded(dt.day, 2),
              FormatPadded(dt.hour, 2), FormatPadded(dt.minute, 2), FormatPadded(dt.second, 2)])
  }

  lemma GroupsOfAssemble(g: seq<string>)
    requires GroupWidths(g)
    ensures |Assemble(g)| == 19 && Separators(Assemble(g))
    ensures Groups(Assemble(g)) == g
  {
    var t := Assemble(g);
    assert t[0..4] == g[0];
    assert t[5..7] == g[1];
    assert t[8..10] == g[2];
    assert t[11..13] == g[3];
    assert t[14..16] == g[4];
    assert t[17..19] == g[5];
  }

  lemma AssembleOfGroups(t: string)
    requires |t| == 19 && Separators(t)
    ensures Assemble(Groups(t)) == t
  {
    var a := Assemble(Groups(t));
    assert |a| == 19;
    forall i | 0 <= i < 19 ensures a[i] == t[i] { }
  }

  /** The groups of the canonical text are the padded fields. */
  lemma FormatGroups(dt: DateTime)
    requires RealDateTime(dt)
    ensures |FormatTimestamp(dt)| == 19 && Separators(FormatTimestamp(dt))
    ensures DigitGroups(Groups(FormatTimestamp(dt)))
    ensures Strptime(FormatTimestamp(dt)) == Some(dt)
  {
    var g := [FormatPadded(dt.year, 4), FormatPadded(dt.month, 2), FormatPadded(dt.day, 2),
              FormatPadded(dt.hour, 2), FormatPadded(dt.minute, 2), FormatPadded(dt.second, 2)];
    PaddedValue(dt.year, 4);
    PaddedValue(dt.month, 2);
    PaddedValue(dt.day, 2);
    PaddedValue(dt.hour, 2);
    PaddedValue(dt.minute, 2);
    PaddedValue(dt.second, 2);
    GroupsOfAssemble(g);
  }

  /** Only the first 19 characters matter to the groups and separators. */
  lemma GroupsPrefix(ts: string)
    requires |ts| >= 19
    ensures Groups(ts[..19]) == Groups(ts)
    ensures Separators(ts[..19]) == Separators(ts)
  {
    var t := ts[..19];
    assert t[0..4] == ts[0..4];
    assert t[5..7] == ts[5..7];
    assert t[8..10] == ts[8..10];
    assert t[11..13] == ts[11..13];
    assert t[14..16] == ts[14..16];
    assert t[17..19] == ts[17..19];
  }

  /** Every real date and time, written canonically, with or without a
      trailing 'Z', passes the validator and reads back as itself. */
  lemma FormattedValid(dt: DateTime, z: bool)
    requires RealDateTime(dt)
    ensures var ts := FormatTimestamp(dt) + (if z then "Z" else "");
      ValidTimestamp(ts) && Strptime(DropZ(ts)) == Some(dt)
  {
    FormatGroups(dt);
    var t := FormatTimestamp(dt);
    var ts := t + (if z then "Z" else "");
    assert ts[..19] == t;
    GroupsPrefix(ts);
    assert DropZ(ts) == t by {
      if !z {
        assert t[18] == Groups(t)[5][1];
      }
    }
  }

  /** Conversely, an accepted timestamp is the canonical text of the date
      and time it denotes, possibly followed by 'Z'. */
  lemma ValidIsFormatted(ts: string)
    requires ValidTimestamp(ts)
    ensures var dt := Strptime(DropZ(ts)).value;
      RealDateTime(dt) && (ts == FormatTimestamp(dt) || ts == FormatTimestamp(dt) + "Z")
  {
    var t := DropZ(ts);
    var g := Groups(t);
    var dt := Strptime(t).value;
    PaddedDigits(g[0]);
    PaddedDigits(g[1]);
    PaddedDigits(g[2]);
    PaddedDigits(g[3]);
    PaddedDigits(g[4]);
    PaddedDigits(g[5]);
    assert [FormatPadded(dt.year, 4), FormatPadded(dt.month, 2), FormatPadded(dt.day, 2),
            FormatPadded(dt.hour, 2), FormatPadded(dt.minute, 2), FormatPadded(dt.second, 2)] == g;
    AssembleOfGroups(t);
    if |ts| == 20 {
      assert ts == t + "Z";
    }
  }

  // ---------------------------------------------------------------- mapper

  /** What `json.loads` does with the metadata text: parse it, raise
      JSONDecodeError, or raise something else (which the validator does
      not catch). JSON parsing itself is a parameter of the model. */
  datatype JsonVerdict = Parsed | DecodeError | OtherError

  /** The fate of one input line. */
  datatype Outcome =
    | Emitted(record: string)
    | MissingFields
    | InvalidTimestamp
    | MalformedJson
    | Unexpected

  /** One iteration of the mapper's loop: field count, then timestamp, then
      JSON, and an accepted line re-emitted as user, timestamp, action,
      content and metadata. */
  function Classify(line: string, json: string -> JsonVerdict): Outcome {
    var fields := Split(Strip(line), '\t');
    if |fields| < 5 then MissingFields
    else if !ValidTimestamp(fields[0]) then InvalidTimestamp
    else
      match json(fields[4])
      case DecodeError => MalformedJson
      case OtherError => Unexpected
      case Parsed => Emitted(Join([fields[1], fields[0], fields[2], fields[3], fields[4]], '\t'))
  }

  /** The `discarded_records` dict. */
  datatype Counters = Counters(invalidTimestamp: nat, malformedJson: nat, missingFields: nat, totalDiscarded: nat)

  /** The counters after one more line. */
  function Count(c: Counters, o: Outcome): Counters {
    match o
    case Emitted(_) => c
    case MissingFields => c.(missingFields := c.missingFields + 1, totalDiscarded := c.totalDiscarded + 1)
    case InvalidTimestamp => c.(invalidTimestamp := c.invalidTimestamp + 1, totalDiscarded := c.totalDiscarded + 1)
    case MalformedJson => c.(malformedJson := c.malformedJson + 1, totalDiscarded := c.totalDiscarded + 1)
    case Unexpected => c.(totalDiscarded := c.totalDiscarded + 1)
  }

  /** The outcome of every input line, in order. */
  function Outcomes(lines: seq<string>, json: string -> JsonVerdict): (os: seq<Outcome>)
    ensures |os| == |lines|
  {
    seq(|lines|, i requires 0 <= i < |lines| => Classify(lines[i], json))
  }

  /** The counters after a run of outcomes. */
  function CountAll(os: seq<Outcome>): Counters {
    if os == [] then Counters(0, 0, 0, 0)
    else Count(CountAll(os[..|os| - 1]), os[|os| - 1])
  }

  function EmittedList(o: Outcome): seq<string> {
    if o.Emitted? then [o.record] else []
  }

  /** The records printed for a run of outcomes. */
  function EmittedAll(os: seq<Outcome>): seq<string> {
    if os == [] then []
    else EmittedAll(os[..|os| - 1]) + EmittedList(os[|os| - 1])
  }

  /** The records the mapper prints, in input order. */
  function Cleansed(lines: seq<string>, json: string -> JsonVerdict): seq<string> {
    EmittedAll(Outcomes(lines, json))
  }

  /** The final `discarded_records`. */
  function Discards(lines: seq<string>, json: string -> JsonVerdict): Counters {
    CountAll(Outcomes(lines, json))
  }

  /** The number of lines lost to an exception the loop's generic handler
      catches. */
  function UnexpectedCount(os: seq<Outcome>): nat {
    if os == [] then 0
    else UnexpectedCount(os[..|os| - 1]) + (if os[|os| - 1].Unexpected? then 1 else 0)
  }

  /** The counter lines written to stderr at the end, in the dict's order. */
  function CounterReport(c: Counters): seq<string> {
    [ "reporter:counter:DataQuality,invalid_timestamp," + FormatNat(c.invalidTimestamp),
      "reporter:counter:DataQuality,malformed_json," + FormatNat(c.malformedJson),
      "reporter:counter:DataQuality,missing_fields," + FormatNat(c.missingFields),
      "reporter:counter:DataQuality,total_discarded," + FormatNat(c.totalDiscarded) ]
  }

  lemma OutcomesPrefix(lines: seq<string>, i: nat, json: string -> JsonVerdict)
    requires i < |lines|
    ensures Outcomes(lines[..i + 1], json) == Outcomes(lines[..i], json) + [Classify(lines[i], json)]
  {
  }

  lemma OutcomesSnoc(os: seq<Outcome>, o: Outcome)
    ensures EmittedAll(os + [o]) == EmittedAll(os) + EmittedList(o)
    ensures CountAll(os + [o]) == Count(CountAll(os), o)
  {
    assert (os + [o])[..|os|] == os;
  }

  /** Classify in terms of a line's fields. */
  lemma ClassifyFields(line: string, fields: seq<string>, json: string -> JsonVerdict)
    requires fields == Split(Strip(line), '\t')
    ensures Classify(line, json)
         == if |fields| < 5 then MissingFields
            else if !ValidTimestamp(fields[0]) then InvalidTimestamp
            else if json(fields[4]) == DecodeError then MalformedJson
            else if json(fields[4]) == OtherError then Unexpected
            else Emitted(fields[1] + "\t" + fields[0] + "\t" + fields[2] + "\t" + fields[3] + "\t" + fields[4])
  {
    if |fields| >= 5 {
      TabJoin(fields[1], fields[0], fields[2], fields[3], fields[4]);
    }
  }

  /** Joining five fields with tabs is the f-string that prints them. */
  lemma TabJoin(a: string, b: string, d: string, e: string, f: string)
    ensures Join([a, b, d, e, f], '\t') == a + "\t" + b + "\t" + d + "\t" + e + "\t" + f
  {
    var ps := [a, b, d, e, f];
    assert ps[1..] == [b, d, e, f];
    assert ps[1..][1..] == [d, e, f];
    assert ps[1..][1..][1..] == [e, f];
    assert ps[1..][1..][1..][1..] == [f];
    assert Join([e, f], '\t') == e + ['\t'] + f;
    assert Join([d, e, f], '\t') == d + ['\t'] + (e + ['\t'] + f);
    assert Join([b, d, e, f], '\t') == b + ['\t'] + (d + ['\t'] + (e + ['\t'] + f));
    assert Join(ps, '\t') == a + ['\t'] + (b + ['\t'] + (d + ['\t'] + (e + ['\t'] + f)));
    assert "\t" == ['\t'];
    Regroup5(a, b, d, e, f, ['\t']);
  }

  lemma Regroup5<T>(a: seq<T>, b: seq<T>, d: seq<T>, e: seq<T>, f: seq<T>, t: seq<T>)
    ensures a + t + (b + t + (d + t + (e + t + f))) == a + t + b + t + d + t + e + t + f
  {
  }

  /** The mapper script. `json` stands for `json.loads`. Returns the printed
      records and the counter lines written to stderr. */
  method RunMapper(lines: seq<string>, json: string -> JsonVerdict)
    returns (out: seq<string>, counters: Counters, report: seq<string>)
    ensures out == Cleansed(lines, json)
    ensures counters == Discards(lines, json)
    ensures report == CounterReport(counters)
  {
    out := [];
    counters := Counters(0, 0, 0, 0);
    ghost var seen: seq<Outcome> := [];
    for i := 0 to |lines|
      invariant seen == Outcomes(lines[..i], json)
      invariant out == EmittedAll(seen)
      invariant counters == CountAll(seen)
    {
      OutcomesPrefix(lines, i, json);
      var outcome := ValidateLine(lines[i], json);
      OutcomesSnoc(seen, outcome);
      out, counters := Record(out, counters, outcome);
      seen := seen + [outcome];
    }
    assert lines[..|lines|] == lines;
    report := CounterReport(counters);
  }

  /** What one iteration leaves behind: the printed record, or one more
      discarded line under its counter and under total_discarded. */
  method Record(out: seq<string>, counters: Counters, outcome: Outcome)
    returns (out': seq<string>, counters': Counters)
    ensures out' == out + EmittedList(outcome)
    ensures counters' == Count(counters, outcome)
  {
    out', counters' := out, counters;
    match outcome {
      case MissingFields =>
        counters' := counters'.(missingFields := counters'.missingFields + 1);
        counters' := counters'.(totalDiscarded := counters'.totalDiscarded + 1);
      case InvalidTimestamp =>
        counters' := counters'.(invalidTimestamp := counters'.invalidTimestamp + 1);
        counters' := counters'.(totalDiscarded := counters'.totalDiscarded + 1);
      case MalformedJson =>
        counters' := counters'.(malformedJson := counters'.malformedJson + 1);
        counters' := counters'.(totalDiscarded := counters'.totalDiscarded + 1);
      case Unexpected =>
        // raised out of validate_json into the loop's generic handler
        counters' := counters'.(totalDiscarded := counters'.totalDiscarded + 1);
      case Emitted(record) =>
        out' := out' + [record];
    }
  }

  /** The checks of one iteration, in the script's order. */
  method ValidateLine(line: string, json: string -> JsonVerdict) returns (outcome: Outcome)
    ensures outcome == Classify(line, json)
  {
    var fields := Split(Strip(line), '\t');
    ClassifyFields(line, fields, json);
    if |fields| < 5 {
      return MissingFields;
    }
    var timestamp, userId, actionType, contentId, metadataJson := fields[0], fields[1], fields[2], fields[3], fields[4];
    if !ValidTimestamp(timestamp) {
      return InvalidTimestamp;
    }
    var verdict := json(metadataJson);
    if verdict == DecodeError {
      return MalformedJson;
    }
    if verdict == OtherError {
      return Unexpected;
    }
    return Emitted(userId + "\t" + timestamp + "\t" + actionType + "\t" + contentId + "\t" + metadataJson);
  }

  /** Every input line is either printed or counted as discarded. */
  lemma EveryLineAccounted(lines: seq<string>, json: string -> JsonVerdict)
    ensures |Cleansed(lines, json)| + Discards(lines, json).totalDiscarded == |lines|
  {
    OutcomesAccounted(Outcomes(lines, json));
  }

  lemma {:induction false} OutcomesAccounted(os: seq<Outcome>)
    ensures |EmittedAll(os)| + CountAll(os).totalDiscarded == |os|
  {
    if os != [] {
      OutcomesAccounted(os[..|os| - 1]);
    }
  }

  /** The total is the sum of the specific counters plus the lines lost to
      an unexpected exception, which have no counter of their own. */
  lemma {:induction false} TotalIsSum(os: seq<Outcome>)
    ensures var c := CountAll(os);
      c.totalDiscarded == c.missingFields + c.invalidTimestamp + c.malformedJson + UnexpectedCount(os)
  {
    if os != [] {
      TotalIsSum(os[..|os| - 1]);
    }
  }

  /** A printed record is the line's first five fields with user and
      timestamp swapped; the timestamp is printed as it was read (with its
      'Z', if any) and is valid; later fields are dropped. */
  lemma EmittedRecord(line: string, json: string -> JsonVerdict)
    requires Classify(line, json).Emitted?
    ensures var fields := Split(Strip(line), '\t');
      && |fields| >= 5
      && ValidTimestamp(fields[0])
      && json(fields[4]) == Parsed
      && Split(Classify(line, json).record, '\t') == [fields[1], fields[0], fields[2], fields[3], fields[4]]
  {
    var fields := Split(Strip(line), '\t');
    var parts := [fields[1], fields[0], fields[2], fields[3], fields[4]];
    SplitJoin(parts, '\t');
  }

  /** A line without a tab, such as `badline`, is counted under
      missing_fields and under total_discarded, and prints nothing. */
  lemma LineWithoutTab(line: string, json: string -> JsonVerdict)
    requires '\t' !in line
    ensures Classify(line, json) == MissingFields
    ensures Discards([line], json) == Counters(0, 0, 1, 1)
    ensures Cleansed([line], json) == []
  {
    NoTabMissing(line, json);
    assert Outcomes([line], json) == [MissingFields];
    MissingOnly();
  }

  lemma NoTabMissing(line: string, json: string -> JsonVerdict)
    requires '\t' !in line
    ensures Classify(line, json) == MissingFields
  {
    StripSpec(line);
    var s := Strip(line);
    assert '\t' !in s;
    IndexOfAbsent(s, '\t');
  }

  lemma MissingOnly()
    ensures CountAll([MissingFields]) == Counters(0, 0, 1, 1)
    ensures EmittedAll([MissingFields]) == []
  {
    OutcomesSnoc([], MissingFields);
  }

  // --------------------------------------------------------------- reducer

  /** The cleansing reducer: each line, stripped. */
  function Reduce(lines: seq<string>): (r: seq<string>)
    ensures |r| == |lines|
  {
    seq(|lines|, i requires 0 <= i < |lines| => Strip(lines[i]))
  }

  /** Each output line is its input line cut down to a trimmed middle part. */
  lemma ReduceTrims(lines: seq<string>, i: nat)
    requires i < |lines|
    ensures Trimmed(Reduce(lines)[i])
    ensures var k := |lines[i]| - |TrimStart(lines[i])|;
      k + |Reduce(lines)[i]| <= |lines[i]| && Reduce(lines)[i] == lines[i][k..k + |Reduce(lines)[i]|]
  {
    StripSpec(lines[i]);
  }

  /** Reducing its own output changes nothing. */
  lemma ReduceIdempotent(lines: seq<string>)
    ensures Reduce(Reduce(lines)) == Reduce(lines)
  {
    forall i | 0 <= i < |lines| ensures Reduce(Reduce(lines))[i] == Reduce(lines)[i] {
      StripIdempotent(lines[i]);
    }
  }

  /** Blank lines are kept, as empty lines. */
  lemma ReduceBlank(lines: seq<string>, i: nat)
    requires i < |lines|
    ensures Reduce(lines)[i] == "" <==> forall k :: 0 <= k < |lines[i]| ==> IsSpace(lines[i][k])
  {
    StripEmptyIff(lines[i]);
  }
}
