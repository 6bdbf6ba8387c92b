/** The parsers the visualisation reads the job outputs with: the user
    activity summaries into five parallel columns plus a total, and the
    trending content lines into ids and engagement scores. */
module Visualize {
  import opened Wrappers
  import opened Text
  import opened Numbers
  import Aggregation
  import Trending

  // ---------------------------------------------------------- activity

  /** `activity_dict` after the comma-separated parts: each `name:int` part
      sets its name, later parts overwriting earlier ones; parts without
      exactly one colon are skipped; a non-integer count raises, which is
      None. */
  function ActivityDict(parts: seq<string>): Option<map<string, int>> {
    if parts == [] then Some(map[])
    else
      match ActivityDict(parts[..|parts| - 1])
      case None => None
      case Some(d) =>
        var kv := Split(parts[|parts| - 1], ':');
        if |kv| != 2 then Some(d)
        else match ParseInt(kv[1])
          case None => None
          case Some(v) => Some(d[kv[0] := v])
  }

  /** `activity_dict.get(name, 0)`. */
  function Get(d: map<string, int>, name: string): int {
    if name in d then d[name] else 0
  }

  /** One parsed row of the activity table. */
  datatype Row = Row(user: string, posts: int, likes: int, comments: int, shares: int)

  /** The row a line gives: at least two tab fields and every counted part
      an integer. */
  function ActivityRow(line: string): Option<Row> {
    var parts := Split(Strip(line), '\t');
    if |parts| < 2 then None
    else
      match ActivityDict(Split(parts[1], ','))
      case None => None
      case Some(d) => Some(Row(parts[0], Get(d, "posts"), Get(d, "likes"), Get(d, "comments"), Get(d, "shares")))
  }

  function RowList(line: string): seq<Row> {
    match ActivityRow(line)
    case Some(r) => [r]
    case None => []
  }

  /** The rows of the lines that parse, in order. */
  function ActivityRows(lines: seq<string>): seq<Row> {
    if lines == [] then []
    else ActivityRows(lines[..|lines| - 1]) + RowList(lines[|lines| - 1])
  }

  lemma ActivityRowsPrefix(lines: seq<string>, i: nat)
    requires i < |lines|
    ensures ActivityRows(lines[..i + 1]) == ActivityRows(lines[..i]) + RowList(lines[i])
  {
    assert lines[..i + 1][..i] == lines[..i];
  }

  /** The columns of the activity table. */
  datatype ActivityTable = ActivityTable(users: seq<string>, posts: seq<int>, likes: seq<int>,
                                         comments: seq<int>, shares: seq<int>, totalActivity: seq<int>)

  /** The row the five columns hold at position k. */
  function RowAt(t: ActivityTable, k: nat): Row
    requires k < |t.users| && k < |t.posts| && k < |t.likes| && k < |t.comments| && k < |t.shares|
  {
    Row(t.users[k], t.posts[k], t.likes[k], t.comments[k], t.shares[k])
  }

  /** The five columns hold the rows field by field. */
  predicate Columns(t: ActivityTable, rows: seq<Row>) {
    && |t.users| == |rows| && |t.posts| == |rows| && |t.likes| == |rows|
    && |t.comments| == |rows| && |t.shares| == |rows|
    && (forall k :: 0 <= k < |rows| ==> RowAt(t, k) == rows[k])
  }

  /** The columns hold the rows, and the total column is each row's sum. */
  predicate Tabulates(t: ActivityTable, rows: seq<Row>) {
    && Columns(t, rows)
    && |t.totalActivity| == |rows|
    && (forall k :: 0 <= k < |rows| ==>
          t.totalActivity[k] == rows[k].posts + rows[k].likes + rows[k].comments + rows[k].shares)
  }

  /** `parse_user_activity` on the lines of the file: one row per line that
      parses, in file order, and its total. */
  method ParseUserActivity(lines: seq<string>) returns (table: ActivityTable)
    ensures Tabulates(table, ActivityRows(lines))
  {
    var users: seq<string> := [];
    var posts: seq<int> := [];
    var likes: seq<int> := [];
    var comments: seq<int> := [];
    var shares: seq<int> := [];
    for i := 0 to |lines|
      invariant Columns(ActivityTable(users, posts, likes, comments, shares, []), ActivityRows(lines[..i]))
    {
      ActivityRowsPrefix(lines, i);
      var row := ParseActivityLine(lines[i]);
      if row.Some? {
        ghost var before := ActivityTable(users, posts, likes, comments, shares, []);
        users := users + [row.value.user];
        posts := posts + [row.value.posts];
        likes := likes + [row.value.likes];
        comments := comments + [row.value.comments];
        shares := shares + [row.value.shares];
        AppendRow(before, ActivityRows(lines[..i]), row.value);
      }
    }
    assert lines[..|lines|] == lines;
    var totalActivity := seq(|posts|, k requires 0 <= k < |posts| => posts[k] + likes[k] + comments[k] + shares[k]);
    table := ActivityTable(users, posts, likes, comments, shares, totalActivity);
  }

  /** Appending a row to every column keeps the columns holding the rows. */
  lemma AppendRow(t: ActivityTable, rows: seq<Row>, r: Row)
    requires Columns(t, rows)
    ensures Columns(ActivityTable(t.users + [r.user], t.posts + [r.posts], t.likes + [r.likes],
                                  t.comments + [r.comments], t.shares + [r.shares], []), rows + [r])
  {
  }

  /** The body of the loop over lines: the row one line gives. */
  method ParseActivityLine(line: string) returns (row: Option<Row>)
    ensures row == ActivityRow(line)
  {
    var parts := Split(Strip(line), '\t');
    if |parts| < 2 {
      return None;
    }
    var userId := parts[0];
    var activityData := parts[1];
    var activityDict := ParseActivity(Split(activityData, ','));
    if activityDict.None? {
      return None;
    }
    var d := activityDict.value;
    return Some(Row(userId, Get(d, "posts"), Get(d, "likes"), Get(d, "comments"), Get(d, "shares")));
  }

  /** The inner loop filling `activity_dict`; None where `int()` raises. */
  method ParseActivity(activityParts: seq<string>) returns (activityDict: Option<map<string, int>>)
    ensures activityDict == ActivityDict(activityParts)
  {
    var d: map<string, int> := map[];
    for j := 0 to |activityParts|
      invariant ActivityDict(activityParts[..j]) == Some(d)
    {
      assert activityParts[..j + 1][..j] == activityParts[..j];
      var keyValue := Split(activityParts[j], ':');
      if |keyValue| == 2 {
        var v := ParseInt(keyValue[1]);
        if v.None? {
          BadCountSticks(activityParts, j + 1);
          return None;
        }
        d := d[keyValue[0] := v.value];
      }
    }
    assert activityParts[..|activityParts|] == activityParts;
    return Some(d);
  }

  /** Once a part fails to parse, the whole dict fails. */
  lemma {:induction false} BadCountSticks(parts: seq<string>, j: nat)
    requires j <= |parts|
    requires ActivityDict(parts[..j]) == None
    ensures ActivityDict(parts) == None
    decreases |parts| - j
  {
    if j < |parts| {
      assert parts[..j + 1][..j] == parts[..j];
      BadCountSticks(parts, j + 1);
    } else {
      assert parts[..j] == parts;
    }
  }

  /** A part of the form `name:value` with exactly one colon. */
  predicate Pair(part: string) {
    |Split(part, ':')| == 2
  }

  /** A well-formed part whose value is not an integer. */
  predicate BadPart(part: string) {
    Pair(part) && ParseInt(Split(part, ':')[1]).None?
  }

  /** A well-formed part naming `name`. */
  predicate Names(part: string, name: string) {
    Pair(part) && Split(part, ':')[0] == name
  }

  /** A part without exactly one colon leaves the dict as it was. */
  lemma IgnoredPart(parts: seq<string>, p: string)
    requires !Pair(p)
    ensures ActivityDict(parts + [p]) == ActivityDict(parts)
  {
    assert (parts + [p])[..|parts|] == parts;
  }

  /** A line is dropped as a whole exactly when one of its `name:value`
      parts has a non-integer value. */
  lemma {:induction false} DictFails(parts: seq<string>)
    ensures ActivityDict(parts) == None <==> exists i :: 0 <= i < |parts| && BadPart(parts[i])
  {
    if parts != [] {
      var init := parts[..|parts| - 1];
      DictFails(init);
      assert forall i :: 0 <= i < |init| ==> init[i] == parts[i];
      if BadPart(parts[|parts| - 1]) {
        assert ActivityDict(parts) == None by {
          if ActivityDict(init).Some? { }
        }
      }
    }
  }

  /** A name no part gives reads as 0. */
  lemma {:induction false} DictAbsent(parts: seq<string>, name: string)
    requires ActivityDict(parts).Some?
    requires forall i :: 0 <= i < |parts| ==> !Names(parts[i], name)
    ensures Get(ActivityDict(parts).value, name) == 0
  {
    if parts != [] {
      var init := parts[..|parts| - 1];
      assert forall i :: 0 <= i < |init| ==> init[i] == parts[i];
      assert ActivityDict(init).Some?;
      DictAbsent(init, name);
    }
  }

  /** A name reads as the value of the last part that gives it: later parts
      overwrite earlier ones. */
  lemma {:induction false} DictLast(parts: seq<string>, name: string, i: nat)
    requires ActivityDict(parts).Some?
    requires i < |parts| && Names(parts[i], name)
    requires forall j :: i < j < |parts| ==> !Names(parts[j], name)
    ensures ParseInt(Split(parts[i], ':')[1]) == Some(Get(ActivityDict(parts).value, name))
  {
    var init := parts[..|parts| - 1];
    assert forall k :: 0 <= k < |init| ==> init[k] == parts[k];
    assert ActivityDict(init).Some?;
    if i < |parts| - 1 {
      DictLast(init, name, i);
    }
  }

  /** A summary line the aggregation reducer prints, for a user id without
      tabs that does not start with whitespace, reads back as that user and
      the four counts. */
  lemma SummaryRoundTrip(user: string, c: Aggregation.Counts)
    requires '\t' !in user && user != [] && !IsSpace(user[0])
    ensures ActivityRow(Aggregation.SummaryLine(user, c)) == Some(Row(user, c.post, c.like, c.comment, c.share))
  {
    var activity := SummaryValue(c);
    SummaryShape(user, c);
    SummaryValueChars(c);
    var line := user + ['\t'] + activity;
    assert line[0] == user[0];
    assert line[|line| - 1] == activity[|activity| - 1];
    StripTrimmed(line);
    Aggregation.SplitPair(user, activity, '\t');
    SummaryDict(c);
  }

  /** `name:N`. */
  function Part(name: string, n: int): string {
    name + [':'] + FormatInt(n)
  }

  function SummaryParts(c: Aggregation.Counts): seq<string> {
    [Part("posts", c.post), Part("likes", c.like), Part("comments", c.comment), Part("shares", c.share)]
  }

  /** The activity field of a summary line. */
  function SummaryValue(c: Aggregation.Counts): string {
    Join(SummaryParts(c), ',')
  }

  /** The summary line is the user, a tab and the four parts joined by commas. */
  lemma SummaryShape(user: string, c: Aggregation.Counts)
    ensures Aggregation.SummaryLine(user, c) == user + ['\t'] + SummaryValue(c)
  {
    var a, b, d, e := FormatInt(c.post), FormatInt(c.like), FormatInt(c.comment), FormatInt(c.share);
    assert "\tposts:" == ['\t'] + "posts" + [':'];
    assert ",likes:" == [','] + "likes" + [':'];
    assert ",comments:" == [','] + "comments" + [':'];
    assert ",shares:" == [','] + "shares" + [':'];
    Regroup(user, ['\t'], "posts", [':'], a, [','], "likes", b, "comments", d, "shares", e);
    Join4(Part("posts", c.post), Part("likes", c.like), Part("comments", c.comment), Part("shares", c.share), ',');
  }

  lemma Regroup<T>(u: seq<T>, t: seq<T>, n1: seq<T>, col: seq<T>, f1: seq<T>, com: seq<T>,
                   n2: seq<T>, f2: seq<T>, n3: seq<T>, f3: seq<T>, n4: seq<T>, f4: seq<T>)
    ensures u + (t + n1 + col) + f1 + (com + n2 + col) + f2 + (com + n3 + col) + f3 + (com + n4 + col) + f4
         == u + t + ((n1 + col + f1) + com + ((n2 + col + f2) + com + ((n3 + col + f3) + com + (n4 + col + f4))))
  {
  }

  lemma Join4(a: string, b: string, d: string, e: string, c: char)
    ensures Join([a, b, d, e], c) == a + [c] + (b + [c] + (d + [c] + e))
  {
    var parts := [a, b, d, e];
    assert parts[1..] == [b, d, e];
    assert parts[1..][1..] == [d, e];
    assert parts[1..][1..][1..] == [e];
    assert Join([d, e], c) == d + [c] + e;
    assert Join([b, d, e], c) == b + [c] + (d + [c] + e);
  }

  lemma SummaryValueChars(c: Aggregation.Counts)
    ensures |SummaryValue(c)| >= 1 && '\t' !in SummaryValue(c)
    ensures !IsSpace(SummaryValue(c)[|SummaryValue(c)| - 1])
  {
    CountNames();
    PartChars("posts", c.post);
    PartChars("likes", c.like);
    PartChars("comments", c.comment);
    PartChars("shares", c.share);
    FourPieces(Part("posts", c.post), Part("likes", c.like), Part("comments", c.comment), Part("shares", c.share));
  }

  /** Four tab-free non-empty pieces whose last one ends in a non-space join
      by commas into a tab-free string ending in that non-space. */
  lemma FourPieces(a: string, b: string, d: string, e: string)
    requires '\t' !in a && '\t' !in b && '\t' !in d && '\t' !in e
    requires a != [] && b != [] && d != [] && e != [] && !IsSpace(e[|e| - 1])
    ensures var j := Join([a, b, d, e], ',');
      |j| >= 1 && '\t' !in j && !IsSpace(j[|j| - 1])
  {
    var ps := [a, b, d, e];
    assert forall i :: 0 <= i < |ps| ==> '\t' !in ps[i] && ps[i] != "";
    JoinFree(ps, ',', '\t');
    JoinEnds(ps, ',');
  }

  /** `name:N` for a tab-free name is tab-free and ends in N's last digit. */
  lemma PartChars(name: string, n: int)
    requires '\t' !in name
    ensures '\t' !in Part(name, n)
    ensures Part(name, n) != [] && !IsSpace(Part(name, n)[|Part(name, n)| - 1])
  {
    FormatIntChars(n);
  }

  /** The activity field fills the dict with the four counts. */
  lemma SummaryDict(c: Aggregation.Counts)
    ensures ActivityDict(Split(SummaryValue(c), ',')).Some?
    ensures var d := ActivityDict(Split(SummaryValue(c), ',')).value;
      Get(d, "posts") == c.post && Get(d, "likes") == c.like && Get(d, "comments") == c.comment && Get(d, "shares") == c.share
  {
    SummarySplit(c);
    var d := PartsDict(c);
    assert "posts" != "likes" && "posts" != "comments" && "posts" != "shares";
    assert "likes" != "comments" && "likes" != "shares" && "comments" != "shares";
  }

  /** The activity field splits on commas into its four parts. */
  lemma SummarySplit(c: Aggregation.Counts)
    ensures Split(SummaryValue(c), ',') == SummaryParts(c)
  {
    CountNames();
    NamedPart("posts", c.post);
    NamedPart("likes", c.like);
    NamedPart("comments", c.comment);
    NamedPart("shares", c.share);
    SplitFour(Part("posts", c.post), Part("likes", c.like), Part("comments", c.comment), Part("shares", c.share));
  }

  /** Four comma-free pieces joined by commas split back into themselves. */
  lemma SplitFour(a: string, b: string, d: string, e: string)
    requires ',' !in a && ',' !in b && ',' !in d && ',' !in e
    ensures Split(Join([a, b, d, e], ','), ',') == [a, b, d, e]
  {
    var ps := [a, b, d, e];
    assert forall i :: 0 <= i < |ps| ==> ',' !in ps[i];
    SplitJoin(ps, ',');
  }

  /** The four parts set the four names in turn. */
  lemma PartsDict(c: Aggregation.Counts) returns (d: map<string, int>)
    ensures d == map[]["posts" := c.post]["likes" := c.like]["comments" := c.comment]["shares" := c.share]
    ensures ActivityDict(SummaryParts(c)) == Some(d)
  {
    CountNames();
    NamedPart("posts", c.post);
    NamedPart("likes", c.like);
    NamedPart("comments", c.comment);
    NamedPart("shares", c.share);
    d := FourDict(Part("posts", c.post), Part("likes", c.like), Part("comments", c.comment), Part("shares", c.share),
                  "posts", "likes", "comments", "shares", c.post, c.like, c.comment, c.share);
  }

  /** Four `name:N` parts set the four names in turn. */
  lemma FourDict(p1: string, p2: string, p3: string, p4: string,
                 n1: string, n2: string, n3: string, n4: string,
                 v1: int, v2: int, v3: int, v4: int) returns (d: map<string, int>)
    requires Split(p1, ':') == [n1, FormatInt(v1)] && ParseInt(FormatInt(v1)) == Some(v1)
    requires Split(p2, ':') == [n2, FormatInt(v2)] && ParseInt(FormatInt(v2)) == Some(v2)
    requires Split(p3, ':') == [n3, FormatInt(v3)] && ParseInt(FormatInt(v3)) == Some(v3)
    requires Split(p4, ':') == [n4, FormatInt(v4)] && ParseInt(FormatInt(v4)) == Some(v4)
    ensures d == map[][n1 := v1][n2 := v2][n3 := v3][n4 := v4]
    ensures ActivityDict([p1, p2, p3, p4]) == Some(d)
  {
    var d0: map<string, int> := map[];
    var d1 := d0[n1 := v1];
    var d2 := d1[n2 := v2];
    var d3 := d2[n3 := v3];
    d := d3[n4 := v4];
    var q0: seq<string> := [];
    DictStep(q0, d0, p1, n1, v1);
    var q1 := q0 + [p1];
    DictStep(q1, d1, p2, n2, v2);
    var q2 := q1 + [p2];
    DictStep(q2, d2, p3, n3, v3);
    var q3 := q2 + [p3];
    DictStep(q3, d3, p4, n4, v4);
    assert q3 + [p4] == [p1, p2, p3, p4];
  }

  /** One more `name:N` part sets name to N. */
  lemma DictStep(parts: seq<string>, d: map<string, int>, p: string, name: string, n: int)
    requires ActivityDict(parts) == Some(d)
    requires Split(p, ':') == [name, FormatInt(n)] && ParseInt(FormatInt(n)) == Some(n)
    ensures ActivityDict(parts + [p]) == Some(d[name := n])
  {
    assert (parts + [p])[..|parts|] == parts;
  }

  /** The four count names hold no colon, no comma and no tab. */
  lemma CountNames()
    ensures ':' !in "posts" && ',' !in "posts" && '\t' !in "posts"
    ensures ':' !in "likes" && ',' !in "likes" && '\t' !in "likes"
    ensures ':' !in "comments" && ',' !in "comments" && '\t' !in "comments"
    ensures ':' !in "shares" && ',' !in "shares" && '\t' !in "shares"
  {
    Lowercase("posts");
    Lowercase("likes");
    Lowercase("comments");
    Lowercase("shares");
  }

  lemma Lowercase(name: string)
    requires forall i :: 0 <= i < |name| ==> 'a' <= name[i] <= 'z'
    ensures ':' !in name && ',' !in name && '\t' !in name
  {
  }

  /** `name:N` holds no comma and no tab, ends with N's last character,
      splits at its one colon into the name and N, and N parses back. */
  lemma NamedPart(name: string, n: int)
    requires ':' !in name && ',' !in name && '\t' !in name
    ensures ',' !in Part(name, n) && '\t' !in Part(name, n)
    ensures Part(name, n) != [] && !IsSpace(Part(name, n)[|Part(name, n)| - 1])
    ensures Split(Part(name, n), ':') == [name, FormatInt(n)]
    ensures ParseInt(FormatInt(n)) == Some(n)
  {
    FormatIntChars(n);
    Aggregation.SplitPair(name, FormatInt(n), ':');
    ParseFormat(n);
  }

  // ---------------------------------------------------------- trending

  /** A trending line with at least two tab fields and an integer second
      field gives (content id, engagement). */
  function TrendingRow(line: string): Option<(string, int)> {
    var parts := Split(Strip(line), '\t');
    if |parts| < 2 then None
    else match ParseInt(parts[1])
      case None => None
      case Some(e) => Some((parts[0], e))
  }

  function TrendingList(line: string): seq<(string, int)> {
    match TrendingRow(line)
    case Some(r) => [r]
    case None => []
  }

  function TrendingRows(lines: seq<string>): seq<(string, int)> {
    if lines == [] then []
    else TrendingRows(lines[..|lines| - 1]) + TrendingList(lines[|lines| - 1])
  }

  /** The two columns hold the rows field by field. */
  predicate Zipped(contentIds: seq<string>, engagementScores: seq<int>, rows: seq<(string, int)>) {
    && |contentIds| == |rows| && |engagementScores| == |rows|
    && forall k :: 0 <= k < |rows| ==> contentIds[k] == rows[k].0 && engagementScores[k] == rows[k].1
  }

  /** `parse_trending_content` on the lines of the file: the two columns
      hold the rows of the lines that parse, in file order. */
  method ParseTrendingContent(lines: seq<string>) returns (contentIds: seq<string>, engagementScores: seq<int>)
    ensures Zipped(contentIds, engagementScores, TrendingRows(lines))
  {
    contentIds, engagementScores := [], [];
    ghost var rows: seq<(string, int)> := [];
    for i := 0 to |lines|
      invariant rows == TrendingRows(lines[..i])
      invariant Zipped(contentIds, engagementScores, rows)
    {
      TrendingRowsPrefix(lines, i);
      var row := ParseTrendingLine(lines[i]);
      if row.Some? {
        AppendPair(contentIds, engagementScores, rows, row.value);
        contentIds := contentIds + [row.value.0];
        engagementScores := engagementScores + [row.value.1];
        rows := rows + [row.value];
      }
    }
    assert lines[..|lines|] == lines;
  }

  /** Appending a row to both columns keeps them holding the rows. */
  lemma AppendPair(contentIds: seq<string>, engagementScores: seq<int>, rows: seq<(string, int)>, r: (string, int))
    requires Zipped(contentIds, engagementScores, rows)
    ensures Zipped(contentIds + [r.0], engagementScores + [r.1], rows + [r])
  {
  }

  lemma TrendingRowsPrefix(lines: seq<string>, i: nat)
    requires i < |lines|
    ensures TrendingRows(lines[..i + 1]) == TrendingRows(lines[..i]) + TrendingList(lines[i])
  {
    assert lines[..i + 1][..i] == lines[..i];
  }

  /** The body of the loop over lines: `int(parts[1])` raising is None. */
  method ParseTrendingLine(line: string) returns (row: Option<(string, int)>)
    ensures row == TrendingRow(line)
  {
    var parts := Split(Strip(line), '\t');
    if |parts| < 2 {
      return None;
    }
    var contentId := parts[0];
    var engagement := ParseInt(parts[1]);
    if engagement.None? {
      return None;
    }
    return Some((contentId, engagement.value));
  }

  /** A line the trending jobs print, for an id without tabs that does not
      start with whitespace, reads back as that id and count. */
  lemma CountLineRoundTrip(id: string, n: int)
    requires '\t' !in id && id != [] && !IsSpace(id[0])
    ensures TrendingRow(Trending.CountLine(id, n)) == Some((id, n))
  {
    var line := Trending.CountLine(id, n);
    FormatIntChars(n);
    assert line == id + ['\t'] + FormatInt(n);
    assert line[0] == id[0];
    assert line[|line| - 1] == FormatInt(n)[|FormatInt(n)| - 1];
    StripTrimmed(line);
    Aggregation.SplitPair(id, FormatInt(n), '\t');
    ParseFormat(n);
  }
}
