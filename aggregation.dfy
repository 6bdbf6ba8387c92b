/** The action-aggregation job: a mapper that counts posts, likes, comments
    and shares per user and emits them under a `user,sortkey` key whose
    padded `10000 - posts` makes ascending string order list heavy posters
    first, and a reducer that prints the first record of each user run. */
module Aggregation {
  import opened Wrappers
  import opened Text
  import opened Numbers
  import opened Ordering
  import opened Tally

  // ---------------------------------------------------------------- mapper

  /** The four counted action types. */
  predicate Counted(a: string) {
    a == "post" || a == "like" || a == "comment" || a == "share"
  }

  /** A user's `{'post': .., 'like': .., 'comment': .., 'share': ..}`. */
  datatype Counts = Counts(post: int, like: int, comment: int, share: int)

  /** `counts[action] += 1`. */
  function Bump(c: Counts, a: string): Counts
    requires Counted(a)
  {
    if a == "post" then c.(post := c.post + 1)
    else if a == "like" then c.(like := c.like + 1)
    else if a == "comment" then c.(comment := c.comment + 1)
    else c.(share := c.share + 1)
  }

  /** The (user, action) a line contributes: at least three fields and a
      lower-cased action that is one of the four. */
  function Action(line: string): Option<(string, string)> {
    var fields := Split(Strip(line), '\t');
    if |fields| >= 3 && Counted(Lower(fields[2])) then Some((fields[0], Lower(fields[2]))) else None
  }

  function ActionList(line: string): seq<(string, string)> {
    match Action(line)
    case Some(p) => [p]
    case None => []
  }

  /** The counted (user, action) pairs, in input order. */
  function Actions(lines: seq<string>): (ps: seq<(string, string)>)
    ensures forall i :: 0 <= i < |ps| ==> Counted(ps[i].1)
  {
    if lines == [] then []
    else Actions(lines[..|lines| - 1]) + ActionList(lines[|lines| - 1])
  }

  lemma ActionsPrefix(lines: seq<string>, i: nat)
    requires i < |lines|
    ensures Actions(lines[..i + 1]) == Actions(lines[..i]) + ActionList(lines[i])
  {
    assert lines[..i + 1][..i] == lines[..i];
  }

  /** The pair of a line, in terms of the line's fields. */
  lemma ActionFields(line: string, fields: seq<string>)
    requires fields == Split(Strip(line), '\t')
    ensures ActionList(line)
         == if |fields| >= 3 && Counted(Lower(fields[2])) then [(fields[0], Lower(fields[2]))] else []
  {
  }

  /** One entry per pair: the dict keys in the order they are created. */
  function Keys(ps: seq<(string, string)>): (es: seq<(string, int)>)
    ensures |es| == |ps|
  {
    seq(|ps|, i requires 0 <= i < |ps| => (ps[i].0, 1))
  }

  /** Weight 1 for the pairs with action a, 0 for the others. */
  function Weights(ps: seq<(string, string)>, a: string): (es: seq<(string, int)>)
    ensures |es| == |ps|
  {
    seq(|ps|, i requires 0 <= i < |ps| => (ps[i].0, if ps[i].1 == a then 1 else 0))
  }

  /** The users in first-seen order. */
  function Users(ps: seq<(string, string)>): seq<string> {
    Order(Keys(ps))
  }

  /** A user's four counts. */
  function UserCounts(ps: seq<(string, string)>, u: string): Counts {
    Counts(Total(Weights(ps, "post"), u), Total(Weights(ps, "like"), u),
           Total(Weights(ps, "comment"), u), Total(Weights(ps, "share"), u))
  }

  /** The state of `user_action_counts` after the pairs ps. */
  ghost predicate Tallied(order: seq<string>, d: map<string, Counts>, ps: seq<(string, string)>) {
    && order == Users(ps)
    && (forall k :: k in d <==> k in order)
    && (forall k :: k in d ==> d[k] == UserCounts(ps, k))
  }

  lemma KeysSnoc(ps: seq<(string, string)>, p: (string, string), a: string)
    ensures Keys(ps + [p]) == Keys(ps) + [(p.0, 1)]
    ensures Weights(ps + [p], a) == Weights(ps, a) + [(p.0, if p.1 == a then 1 else 0)]
  {
  }

  lemma WeightsOrder(ps: seq<(string, string)>, a: string)
    ensures Order(Weights(ps, a)) == Users(ps)
  {
    OrderSameKeys(Weights(ps, a), Keys(ps));
  }

  /** One more pair adds 1 to its user's count for its own action only. */
  lemma WeightTotalSnoc(ps: seq<(string, string)>, p: (string, string), a: string, u: string)
    ensures Total(Weights(ps + [p], a), u) == Total(Weights(ps, a), u) + (if p.0 == u && p.1 == a then 1 else 0)
  {
    KeysSnoc(ps, p, a);
    Step(Weights(ps, a), (p.0, if p.1 == a then 1 else 0));
  }

  /** One more pair bumps its user's count for its action and nothing else. */
  lemma UserCountsSnoc(ps: seq<(string, string)>, p: (string, string), u: string)
    requires Counted(p.1)
    ensures UserCounts(ps + [p], u) == if p.0 == u then Bump(UserCounts(ps, u), p.1) else UserCounts(ps, u)
  {
    WeightTotalSnoc(ps, p, "post", u);
    WeightTotalSnoc(ps, p, "like", u);
    WeightTotalSnoc(ps, p, "comment", u);
    WeightTotalSnoc(ps, p, "share", u);
  }

  /** A user not seen yet has all counts 0. */
  lemma UserCountsAbsent(ps: seq<(string, string)>, u: string)
    requires u !in Users(ps)
    ensures UserCounts(ps, u) == Counts(0, 0, 0, 0)
  {
    WeightsOrder(ps, "post");
    WeightsOrder(ps, "like");
    WeightsOrder(ps, "comment");
    WeightsOrder(ps, "share");
    AbsentTotal(Weights(ps, "post"), u);
    AbsentTotal(Weights(ps, "like"), u);
    AbsentTotal(Weights(ps, "comment"), u);
    AbsentTotal(Weights(ps, "share"), u);
  }

  /** `user_action_counts[user_id][action_type] += 1` on the defaultdict:
      a new user enters with four zeros at the end of the order. */
  method Increment(order: seq<string>, d: map<string, Counts>, user: string, action: string,
                   ghost ps: seq<(string, string)>)
    returns (order': seq<string>, d': map<string, Counts>)
    requires Counted(action)
    requires Tallied(order, d, ps)
    ensures Tallied(order', d', ps + [(user, action)])
  {
    KeysSnoc(ps, (user, action), "");
    Step(Keys(ps), (user, 1));
    forall k ensures UserCounts(ps + [(user, action)], k)
                  == if user == k then Bump(UserCounts(ps, k), action) else UserCounts(ps, k) {
      UserCountsSnoc(ps, (user, action), k);
    }
    order', d' := order, d;
    if user !in d' {
      UserCountsAbsent(ps, user);
      d' := d'[user := Counts(0, 0, 0, 0)];
      order' := order' + [user];
    }
    d' := d'[user := Bump(d'[user], action)];
  }

  /** `f"{10000 - counts['post']:05d}"`. */
  function SortKey(posts: int): string {
    FormatPadded(10000 - posts, 5)
  }

  /** The record key `user,sortkey`. */
  function RecordKey(user: string, posts: int): string {
    user + "," + SortKey(posts)
  }

  /** The record value `post,like,comment,share`. */
  function RecordValue(c: Counts): string {
    FormatInt(c.post) + "," + FormatInt(c.like) + "," + FormatInt(c.comment) + "," + FormatInt(c.share)
  }

  /** The printed record `key<TAB>value`. */
  function RecordLine(user: string, c: Counts): string {
    RecordKey(user, c.post) + "\t" + RecordValue(c)
  }

  /** One record per user, in first-seen order. */
  function Records(ps: seq<(string, string)>): (r: seq<string>)
    ensures |r| == |Users(ps)|
  {
    var us := Users(ps);
    seq(|us|, i requires 0 <= i < |us| => RecordLine(us[i], UserCounts(ps, us[i])))
  }

  /** The mapper's output. */
  function MapperOutput(lines: seq<string>): seq<string> {
    Records(Actions(lines))
  }

  /** The mapper script: the counting loop, then the emitting loop. */
  method RunMapper(lines: seq<string>) returns (out: seq<string>)
    ensures out == MapperOutput(lines)
  {
    var userActionCounts: map<string, Counts> := map[];
    var order: seq<string> := [];
    ghost var ps: seq<(string, string)> := [];
    for i := 0 to |lines|
      invariant ps == Actions(lines[..i])
      invariant Tallied(order, userActionCounts, ps)
    {
      ActionsPrefix(lines, i);
      var fields := Split(Strip(lines[i]), '\t');
      ActionFields(lines[i], fields);
      if |fields| >= 3 {
        var userId := fields[0];
        var actionType := Lower(fields[2]);
        if actionType == "post" || actionType == "like" || actionType == "comment" || actionType == "share" {
          order, userActionCounts := Increment(order, userActionCounts, userId, actionType, ps);
          ps := ps + [(userId, actionType)];
        }
      }
    }
    assert lines[..|lines|] == lines;
    out := EmitRecords(order, userActionCounts, ps);
  }

  /** The `for user_id, counts in user_action_counts.items()` loop. */
  method EmitRecords(order: seq<string>, d: map<string, Counts>, ghost ps: seq<(string, string)>)
    returns (out: seq<string>)
    requires Tallied(order, d, ps)
    ensures out == Records(ps)
  {
    out := [];
    for j := 0 to |order|
      invariant out == Records(ps)[..j]
    {
      var userId := order[j];
      var line := FormatRecord(userId, d[userId]);
      RecordAt(order, d, ps, j);
      TakeOneMore(Records(ps), j, line);
      out := out + [line];
    }
  }

  lemma RecordAt(order: seq<string>, d: map<string, Counts>, ps: seq<(string, string)>, j: nat)
    requires Tallied(order, d, ps) && j < |order|
    ensures order[j] in d && Records(ps)[j] == RecordLine(order[j], d[order[j]])
  {
  }

  /** The body of that loop: the key, the value and the printed line. */
  method FormatRecord(userId: string, counts: Counts) returns (line: string)
    ensures line == RecordLine(userId, counts)
  {
    var sortKey := SortKey(counts.post);
    var key := userId + "," + sortKey;
    var value := FormatInt(counts.post) + "," + FormatInt(counts.like) + "," + FormatInt(counts.comment) + "," + FormatInt(counts.share);
    line := key + "\t" + value;
  }

  /** The number of counted pairs with action a. */
  function ActionCount(ps: seq<(string, string)>, a: string): nat {
    if ps == [] then 0
    else ActionCount(ps[..|ps| - 1], a) + (if ps[|ps| - 1].1 == a then 1 else 0)
  }

  lemma {:induction false} WeightsSum(ps: seq<(string, string)>, a: string)
    ensures SumWeights(Weights(ps, a)) == ActionCount(ps, a)
  {
    if ps != [] {
      var init := ps[..|ps| - 1];
      WeightsSum(init, a);
      assert Weights(ps, a)[..|ps| - 1] == Weights(init, a);
    }
  }

  /** For each action type, the per-user counts over all emitted users add
      up to the number of input lines with that action. */
  lemma ActionTotals(lines: seq<string>, a: string)
    ensures SumTotals(Users(Actions(lines)), Weights(Actions(lines), a)) == ActionCount(Actions(lines), a)
  {
    var ps := Actions(lines);
    WeightsOrder(ps, a);
    OrderTotals(Weights(ps, a));
    WeightsSum(ps, a);
  }

  /** A line that is not a counted action changes no count, wherever it is. */
  lemma {:induction false} IgnoredLine(a: seq<string>, l: string, b: seq<string>)
    requires Action(l).None?
    ensures Actions(a + [l] + b) == Actions(a + b)
    ensures MapperOutput(a + [l] + b) == MapperOutput(a + b)
    decreases |b|
  {
    if b == [] {
      assert a + [l] + b == a + [l];
      assert a + b == a;
      IgnoredLast(a, l);
    } else {
      var b', x := b[..|b| - 1], b[|b| - 1];
      SplitLast(a, l, b);
      IgnoredLine(a, l, b');
      SameActionsSnoc(a + [l] + b', a + b', x);
    }
  }

  lemma IgnoredLast(a: seq<string>, l: string)
    requires Action(l).None?
    ensures Actions(a + [l]) == Actions(a)
  {
    assert (a + [l])[..|a|] == a;
  }

  lemma SplitLast(a: seq<string>, l: string, b: seq<string>)
    requires b != []
    ensures a + [l] + b == (a + [l] + b[..|b| - 1]) + [b[|b| - 1]]
    ensures a + b == (a + b[..|b| - 1]) + [b[|b| - 1]]
  {
    assert b == b[..|b| - 1] + [b[|b| - 1]];
  }

  lemma SameActionsSnoc(p: seq<string>, q: seq<string>, x: string)
    requires Actions(p) == Actions(q)
    ensures Actions(p + [x]) == Actions(q + [x])
  {
    assert (p + [x])[..|p|] == p;
    assert (q + [x])[..|q|] == q;
  }

  /** Two lines for alice, a like and then a post, make alice the only
      user. */
  lemma AliceUsers(ps: seq<(string, string)>)
    requires ps == [("alice", "like"), ("alice", "post")]
    ensures Users(ps) == ["alice"]
  {
    var init := [("alice", "like")];
    assert ps == init + [("alice", "post")];
    assert init == [] + [("alice", "like")];
    KeysSnoc(init, ("alice", "post"), "");
    KeysSnoc([], ("alice", "like"), "");
    Step(Keys([]), ("alice", 1));
    Step(Keys(init), ("alice", 1));
  }

  /** ... with one post and one like. */
  lemma AliceCounts(ps: seq<(string, string)>)
    requires ps == [("alice", "like"), ("alice", "post")]
    ensures UserCounts(ps, "alice") == Counts(1, 1, 0, 0)
  {
    var init := [("alice", "like")];
    assert ps == init + [("alice", "post")];
    assert init == [] + [("alice", "like")];
    UserCountsAbsent([], "alice");
    UserCountsSnoc([], ("alice", "like"), "alice");
    UserCountsSnoc(init, ("alice", "post"), "alice");
  }

  /** One post gives the sort key `09999`. */
  lemma SortKeyOne()
    ensures SortKey(1) == "09999"
  {
    assert FormatNat(9) == "9";
    assert FormatNat(99) == "99";
    assert FormatNat(999) == "999";
    assert FormatNat(9999) == "9999";
    assert ZeroFill("9999", 5) == "0" + "9999";
  }

  /** The alice lines give the single record `alice,09999<TAB>1,1,0,0`. */
  lemma AliceExample(lines: seq<string>)
    requires Actions(lines) == [("alice", "like"), ("alice", "post")]
    ensures MapperOutput(lines) == ["alice,09999\t1,1,0,0"]
  {
    AliceUsers(Actions(lines));
    AliceCounts(Actions(lines));
    AliceRecord();
    var r := MapperOutput(lines);
    assert r[0] == RecordLine("alice", Counts(1, 1, 0, 0));
    assert r == [r[0]];
  }

  lemma AliceRecord()
    ensures RecordLine("alice", Counts(1, 1, 0, 0)) == "alice,09999\t1,1,0,0"
  {
    SortKeyOne();
    assert FormatInt(1) == "1" && FormatInt(0) == "0";
    assert RecordValue(Counts(1, 1, 0, 0)) == "1,1,0,0";
    assert RecordKey("alice", 1) == "alice,09999";
  }

  // -------------------------------------------------------------- sort key

  /** Digit strings of one length compare as strings the way their values
      compare as numbers. */
  lemma {:induction false} DigitsOrder(s: string, t: string)
    requires AllDigits(s) && AllDigits(t) && |s| == |t|
    ensures Below(s, t) <==> DigitsValue(s) <= DigitsValue(t)
  {
    if s != [] {
      DigitsValueFront(s);
      DigitsValueFront(t);
      var p := Pow10(|s| - 1);
      var a, b := DigitValue(s[0]), DigitValue(t[0]);
      DigitsValueFront2(s[1..], p);
      DigitsValueFront2(t[1..], p);
      if a < b {
        FrontLess(a, b, DigitsValue(s[1..]), DigitsValue(t[1..]), p);
      } else if a > b {
        FrontLess(b, a, DigitsValue(t[1..]), DigitsValue(s[1..]), p);
      } else {
        DigitsOrder(s[1..], t[1..]);
      }
    }
  }

  lemma DigitsValueFront2(s: string, p: nat)
    requires AllDigits(s) && p == Pow10(|s|)
    ensures DigitsValue(s) < p
  {
    if s != [] {
      DigitsValueFront(s);
    }
  }

  /** A smaller leading digit decides, whatever follows. */
  lemma FrontLess(a: nat, b: nat, x: nat, y: nat, p: nat)
    requires a < b && x < p
    ensures a * p + x < b * p + y
  {
    var k := b - a - 1;
    assert b * p == a * p + p + k * p;
  }

  /** For 0..10000 posts the sort key is exactly five digits and denotes
      10000 - posts. */
  lemma SortKeyDigits(posts: int)
    requires 0 <= posts <= 10000
    ensures |SortKey(posts)| == 5 && AllDigits(SortKey(posts))
    ensures DigitsValue(SortKey(posts)) == 10000 - posts
  {
    PaddedValue(10000 - posts, 5);
  }

  /** Ascending string order of sort keys is descending post count. */
  lemma SortKeyOrder(p: int, q: int)
    requires 0 <= p <= 10000 && 0 <= q <= 10000
    ensures Below(SortKey(p), SortKey(q)) <==> q <= p
  {
    SortKeyDigits(p);
    SortKeyDigits(q);
    DigitsOrder(SortKey(p), SortKey(q));
  }

  /** Above 10000 posts the key turns negative: it starts with '-'. */
  lemma SortKeyNegative(posts: int)
    requires posts > 10000
    ensures SortKey(posts)[0] == '-'
    ensures posts == 10001 ==> SortKey(posts) == "-0001"
  {
    if posts == 10001 {
      assert FormatNat(1) == "1";
    }
  }

  // --------------------------------------------------------------- reducer

  /** `map(int, value.split(','))` unpacked into four counts; None where the
      value does not have exactly four integer fields (the ValueError). */
  function ParseCounts(value: string): Option<Counts> {
    var fields := Split(value, ',');
    if |fields| != 4 then None
    else
      match (ParseInt(fields[0]), ParseInt(fields[1]), ParseInt(fields[2]), ParseInt(fields[3]))
      case (Some(p), Some(l), Some(c), Some(s)) => Some(Counts(p, l, c, s))
      case _ => None
  }

  /** `key, value = line.strip().split('\t')` and the user id before the
      first comma of the key; None when the line has not exactly two fields. */
  function KeyValue(line: string): Option<(string, string)> {
    var parts := Split(Strip(line), '\t');
    if |parts| == 2 then Some((Split(parts[0], ',')[0], parts[1])) else None
  }

  /** The printed summary `user<TAB>posts:N,likes:N,comments:N,shares:N`. */
  function SummaryLine(user: string, c: Counts): string {
    user + "\tposts:" + FormatInt(c.post) + ",likes:" + FormatInt(c.like)
      + ",comments:" + FormatInt(c.comment) + ",shares:" + FormatInt(c.share)
  }

  function SummaryList(user: string, value: string): seq<string> {
    match ParseCounts(value)
    case Some(c) => [SummaryLine(user, c)]
    case None => []
  }

  /** The reducer between two lines: `current_user` and what it printed. */
  datatype ReducerState = ReducerState(current: Option<string>, out: seq<string>)

  /** One line: a malformed line changes nothing; a line whose user differs
      from the current one makes that user current, and prints its counts
      when they parse. */
  function ReduceStep(st: ReducerState, line: string): ReducerState {
    match KeyValue(line)
    case None => st
    case Some((user, value)) =>
      if st.current == Some(user) then st
      else ReducerState(Some(user), st.out + SummaryList(user, value))
  }

  /** The state after the lines. */
  function Reduced(lines: seq<string>): ReducerState {
    if lines == [] then ReducerState(None, [])
    else ReduceStep(Reduced(lines[..|lines| - 1]), lines[|lines| - 1])
  }

  lemma ReducedPrefix(lines: seq<string>, i: nat)
    requires i < |lines|
    ensures Reduced(lines[..i + 1]) == ReduceStep(Reduced(lines[..i]), lines[i])
  {
    assert lines[..i + 1][..i] == lines[..i];
  }

  /** The reducer script. */
  method RunReducer(lines: seq<string>) returns (out: seq<string>)
    ensures out == Reduced(lines).out
  {
    var currentUser: Option<string> := None;
    out := [];
    for i := 0 to |lines|
      invariant Reduced(lines[..i]) == ReducerState(currentUser, out)
    {
      ReducedPrefix(lines, i);
      currentUser, out := ReduceLine(currentUser, out, lines[i]);
    }
    assert lines[..|lines|] == lines;
  }

  /** The body of the reducer's loop, exceptions included. */
  method ReduceLine(currentUser: Option<string>, out: seq<string>, line: string)
    returns (currentUser': Option<string>, out': seq<string>)
    ensures ReducerState(currentUser', out') == ReduceStep(ReducerState(currentUser, out), line)
  {
    currentUser', out' := currentUser, out;
    var parts := Split(Strip(line), '\t');
    if |parts| != 2 {
      return;
    }
    var key, value := parts[0], parts[1];
    var userId := Split(key, ',')[0];
    if currentUser != Some(userId) {
      currentUser' := Some(userId);
      var fields := Split(value, ',');
      if |fields| != 4 {
        return;
      }
      var postCount := ParseInt(fields[0]);
      var likeCount := ParseInt(fields[1]);
      var commentCount := ParseInt(fields[2]);
      var shareCount := ParseInt(fields[3]);
      if postCount.None? || likeCount.None? || commentCount.None? || shareCount.None? {
        return;
      }
      var counts := Counts(postCount.value, likeCount.value, commentCount.value, shareCount.value);
      out' := out + [SummaryLine(userId, counts)];
    }
  }

  /** The (user, value) pairs of the well-formed lines, in order. */
  function Pairs(lines: seq<string>): seq<(string, string)> {
    if lines == [] then []
    else Pairs(lines[..|lines| - 1]) + match KeyValue(lines[|lines| - 1]) case Some(kv) => [kv] case None => []
  }

  /** A pair starts a run when it is the first or its user differs from the
      previous pair's. */
  predicate RunStart(ps: seq<(string, string)>, i: nat)
    requires i < |ps|
  {
    i == 0 || ps[i - 1].0 != ps[i].0
  }

  /** The summaries of the run starts whose counts parse. */
  function Summaries(ps: seq<(string, string)>): seq<string> {
    if ps == [] then []
    else
      var i := |ps| - 1;
      Summaries(ps[..i]) + if RunStart(ps, i) then SummaryList(ps[i].0, ps[i].1) else []
  }

  /** The user of the last pair, if any. */
  function LastUser(ps: seq<(string, string)>): Option<string> {
    if ps == [] then None else Some(ps[|ps| - 1].0)
  }

  function PairList(line: string): seq<(string, string)> {
    match KeyValue(line)
    case Some(kv) => [kv]
    case None => []
  }

  lemma PairsSnoc(lines: seq<string>)
    requires lines != []
    ensures Pairs(lines) == Pairs(lines[..|lines| - 1]) + PairList(lines[|lines| - 1])
  {
  }

  lemma SummariesSnoc(ps: seq<(string, string)>, kv: (string, string))
    ensures Summaries(ps + [kv]) == Summaries(ps) + if LastUser(ps) != Some(kv.0) then SummaryList(kv.0, kv.1) else []
    ensures LastUser(ps + [kv]) == Some(kv.0)
  {
    assert (ps + [kv])[..|ps|] == ps;
  }

  /** One more line keeps the reducer's state in step with the pairs. */
  lemma StepSummaries(st: ReducerState, ps: seq<(string, string)>, line: string)
    requires st == ReducerState(LastUser(ps), Summaries(ps))
    ensures ReduceStep(st, line) == ReducerState(LastUser(ps + PairList(line)), Summaries(ps + PairList(line)))
  {
    match KeyValue(line)
    case None =>
      assert ps + PairList(line) == ps;
    case Some(kv) =>
      SummariesSnoc(ps, kv);
  }

  /** The reducer prints exactly the summaries of the run starts of the
      well-formed lines, and ends with the last such line's user current. */
  lemma {:induction false} ReducerSummaries(lines: seq<string>)
    ensures Reduced(lines) == ReducerState(LastUser(Pairs(lines)), Summaries(Pairs(lines)))
  {
    if lines != [] {
      var init := lines[..|lines| - 1];
      ReducerSummaries(init);
      PairsSnoc(lines);
      StepSummaries(Reduced(init), Pairs(init), lines[|lines| - 1]);
    }
  }

  /** A run of lines for one user prints at most one summary: the first
      line's, when its counts parse. */
  lemma {:induction false} OneSummaryPerRun(ps: seq<(string, string)>, u: string)
    requires ps != []
    requires forall i :: 0 <= i < |ps| ==> ps[i].0 == u
    ensures Summaries(ps) == SummaryList(u, ps[0].1)
  {
    var i := |ps| - 1;
    if i > 0 {
      assert ps[..i][0] == ps[0];
      OneSummaryPerRun(ps[..i], u);
    } else {
      assert ps[..i] == [];
    }
  }

  /** When no two neighbouring pairs share a user and every value parses,
      every pair is printed. */
  lemma {:induction false} AllSummarised(ps: seq<(string, string)>)
    requires forall i :: 0 < i < |ps| ==> ps[i - 1].0 != ps[i].0
    requires forall i :: 0 <= i < |ps| ==> ParseCounts(ps[i].1).Some?
    ensures |Summaries(ps)| == |ps|
    ensures forall i :: 0 <= i < |ps| ==> Summaries(ps)[i] == SummaryLine(ps[i].0, ParseCounts(ps[i].1).value)
  {
    if ps != [] {
      var i := |ps| - 1;
      AllSummarised(ps[..i]);
    }
  }

  /** A record the mapper prints, for a user id with no comma or tab that
      does not start with whitespace, reads back as that user and the four
      counts. */
  lemma RecordRoundTrip(user: string, c: Counts)
    requires ',' !in user && '\t' !in user
    requires user == [] || !IsSpace(user[0])
    ensures KeyValue(RecordLine(user, c)) == Some((user, RecordValue(c)))
    ensures ParseCounts(RecordValue(c)) == Some(c)
  {
    KeyRoundTrip(user, c);
    CountsRoundTrip(c);
  }

  lemma KeyRoundTrip(user: string, c: Counts)
    requires ',' !in user && '\t' !in user
    requires user == [] || !IsSpace(user[0])
    ensures KeyValue(RecordLine(user, c)) == Some((user, RecordValue(c)))
  {
    LineTrimmed(user, c);
    StripTrimmed(RecordLine(user, c));
    LineFields(user, c);
  }

  /** The record line has two tab-separated fields, and its key two
      comma-separated ones. */
  lemma LineFields(user: string, c: Counts)
    requires ',' !in user && '\t' !in user
    ensures Split(RecordLine(user, c), '\t') == [RecordKey(user, c.post), RecordValue(c)]
    ensures Split(RecordKey(user, c.post), ',') == [user, SortKey(c.post)]
  {
    var key, value := RecordKey(user, c.post), RecordValue(c);
    ValueChars(c);
    SortKeyChars(c.post);
    assert '\t' !in key && ',' !in SortKey(c.post);
    SplitPair(key, value, '\t');
    SplitPair(user, SortKey(c.post), ',');
  }

  /** The record line neither starts nor ends with whitespace. */
  lemma LineTrimmed(user: string, c: Counts)
    requires user == [] || !IsSpace(user[0])
    ensures Trimmed(RecordLine(user, c))
  {
    var line, value := RecordLine(user, c), RecordValue(c);
    ValueChars(c);
    assert line[|line| - 1] == value[|value| - 1];
    assert line[0] == if user == [] then ',' else user[0];
  }

  /** The value holds digits, minus signs and commas, ending in a digit or sign. */
  lemma ValueChars(c: Counts)
    ensures |RecordValue(c)| >= 1
    ensures forall i :: 0 <= i < |RecordValue(c)| ==> var x := RecordValue(c)[i]; x == '-' || x == ',' || IsDigit(x)
  {
    FormatIntChars(c.post);
    FormatIntChars(c.like);
    FormatIntChars(c.comment);
    FormatIntChars(c.share);
  }

  lemma CountsRoundTrip(c: Counts)
    ensures ParseCounts(RecordValue(c)) == Some(c)
  {
    var parts := [FormatInt(c.post), FormatInt(c.like), FormatInt(c.comment), FormatInt(c.share)];
    FormatIntChars(c.post);
    FormatIntChars(c.like);
    FormatIntChars(c.comment);
    FormatIntChars(c.share);
    ValueJoin(c);
    SplitJoin(parts, ',');
    ParseFormat(c.post);
    ParseFormat(c.like);
    ParseFormat(c.comment);
    ParseFormat(c.share);
  }

  /** The value is the four counts joined with commas. */
  lemma ValueJoin(c: Counts)
    ensures RecordValue(c) == Join([FormatInt(c.post), FormatInt(c.like), FormatInt(c.comment), FormatInt(c.share)], ',')
  {
    var a, b, d, e := FormatInt(c.post), FormatInt(c.like), FormatInt(c.comment), FormatInt(c.share);
    var parts := [a, b, d, e];
    assert parts[1..] == [b, d, e];
    assert parts[1..][1..] == [d, e];
    assert parts[1..][1..][1..] == [e];
    assert Join([d, e], ',') == d + [','] + e;
    assert Join([b, d, e], ',') == b + [','] + (d + [','] + e);
    assert Join(parts, ',') == a + [','] + (b + [','] + (d + [','] + e));
  }

  /** The sort key holds digits and at most a minus sign. */
  lemma SortKeyChars(posts: int)
    ensures forall i :: 0 <= i < |SortKey(posts)| ==> SortKey(posts)[i] == '-' || IsDigit(SortKey(posts)[i])
  {
    var n := 10000 - posts;
    if n < 0 {
      LeadingZeros(0, FormatNat(-n));
    } else {
      LeadingZeros(0, FormatNat(n));
    }
  }

  /** Splitting `a c b` where neither side holds c gives the two sides. */
  lemma SplitPair(a: string, b: string, c: char)
    requires c !in a && c !in b
    ensures Split(a + [c] + b, c) == [a, b]
  {
    SplitAround(a, b, c);
    IndexOfAbsent(a, c);
    IndexOfAbsent(b, c);
  }

  /** The record lines of (user, counts) entries. */
  function RecordLines(recs: seq<(string, Counts)>): (r: seq<string>)
    ensures |r| == |recs|
  {
    seq(|recs|, i requires 0 <= i < |recs| => RecordLine(recs[i].0, recs[i].1))
  }

  /** The summary lines of (user, counts) entries. */
  function SummaryLines(recs: seq<(string, Counts)>): (r: seq<string>)
    ensures |r| == |recs|
  {
    seq(|recs|, i requires 0 <= i < |recs| => SummaryLine(recs[i].0, recs[i].1))
  }

  /** The pairs the reducer reads from record lines. */
  function RecordPairs(recs: seq<(string, Counts)>): (r: seq<(string, string)>)
    ensures |r| == |recs|
  {
    seq(|recs|, i requires 0 <= i < |recs| => (recs[i].0, RecordValue(recs[i].1)))
  }

  /** The mapper's records, for users that are pairwise distinct and well
      formed, pass the reducer in any order: each becomes one summary with
      the same counts. */
  lemma EndToEnd(recs: seq<(string, Counts)>)
    requires forall i, j :: 0 <= i < j < |recs| ==> recs[i].0 != recs[j].0
    requires forall i :: 0 <= i < |recs| ==> ',' !in recs[i].0 && '\t' !in recs[i].0
    requires forall i :: 0 <= i < |recs| ==> recs[i].0 == [] || !IsSpace(recs[i].0[0])
    ensures Reduced(RecordLines(recs)).out == SummaryLines(recs)
  {
    RecordsReadBack(recs);
    ReducerSummaries(RecordLines(recs));
    RecordSummaries(recs);
  }

  /** The reducer reads the record lines back as their pairs. */
  lemma RecordsReadBack(recs: seq<(string, Counts)>)
    requires forall i :: 0 <= i < |recs| ==> ',' !in recs[i].0 && '\t' !in recs[i].0
    requires forall i :: 0 <= i < |recs| ==> recs[i].0 == [] || !IsSpace(recs[i].0[0])
    ensures Pairs(RecordLines(recs)) == RecordPairs(recs)
  {
    var lines, ps := RecordLines(recs), RecordPairs(recs);
    forall i | 0 <= i < |recs| ensures KeyValue(lines[i]) == Some(ps[i]) {
      KeyRoundTrip(recs[i].0, recs[i].1);
    }
    AllPairs(lines, ps);
  }

  /** Distinct users: every pair is a run start and every value parses back. */
  lemma RecordSummaries(recs: seq<(string, Counts)>)
    requires forall i, j :: 0 <= i < j < |recs| ==> recs[i].0 != recs[j].0
    ensures Summaries(RecordPairs(recs)) == SummaryLines(recs)
  {
    var ps := RecordPairs(recs);
    forall i | 0 <= i < |recs| ensures ParseCounts(ps[i].1) == Some(recs[i].1) {
      CountsRoundTrip(recs[i].1);
    }
    assert forall i :: 0 < i < |ps| ==> ps[i - 1].0 != ps[i].0;
    AllSummarised(ps);
  }

  /** Lines that are all well formed give their own pairs. */
  lemma {:induction false} AllPairs(lines: seq<string>, ps: seq<(string, string)>)
    requires |lines| == |ps|
    requires forall i :: 0 <= i < |lines| ==> KeyValue(lines[i]) == Some(ps[i])
    ensures Pairs(lines) == ps
  {
    if lines != [] {
      var i := |lines| - 1;
      var front, pfront := lines[..i], ps[..i];
      assert forall k :: 0 <= k < i ==> front[k] == lines[k] && pfront[k] == ps[k];
      AllPairs(front, pfront);
      assert Pairs(lines) == Pairs(front) + [ps[i]];
      FrontLast(ps);
    }
  }
}
