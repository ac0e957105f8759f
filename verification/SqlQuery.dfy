/** The SQL query builder of the Postgres usage store: its text, its numbered placeholders, and the
    fact that it asks the database for what the memory store computes. */
module SqlQuery {
  import opened Common
  import opened Text
  import opened UsageStore

  datatype Arg = Word(s: string) | Time(t: int) | Number(n: int)

  datatype Column = TenantId | UserId | ToolName | Timestamp

  datatype Op = Equal | AtLeast | AtMost

  /** `column op $place`. */
  datatype Cond = Cond(column: Column, op: Op, place: nat)

  /** Conjuncts, newest-first order, and optional LIMIT and OFFSET placeholders. */
  datatype Sql = Sql(conds: seq<Cond>, limitAt: Option<nat>, offsetAt: Option<nat>)

  // ---------------------------------------------------------------- text

  const COLUMNS: seq<string> := ["id", "tenant_id", "user_id", "tool_name", "server_id", "timestamp", "duration_ns",
                                 "tokens_in", "tokens_out", "success", "error_code", "metadata"]

  function CommaJoin(parts: seq<string>): string {
    if |parts| == 0 then "" else if |parts| == 1 then parts[0] else parts[0] + ", " + CommaJoin(parts[1..])
  }

  function FromText(): string {
    "\n\t\tFROM usage_events" + "\n\t\tWHERE 1=1" + "\n\t"
  }

  function Head(): string {
    "\n\t\tSELECT " + CommaJoin(COLUMNS) + FromText()
  }

  const ORDER: string := " ORDER BY timestamp DESC"

  function ColumnText(c: Column): string {
    match c
    case TenantId => "tenant_id"
    case UserId => "user_id"
    case ToolName => "tool_name"
    case Timestamp => "timestamp"
  }

  function OpText(op: Op): string {
    match op
    case Equal => "="
    case AtLeast => ">="
    case AtMost => "<="
  }

  function CondText(c: Cond): string {
    " AND " + ColumnText(c.column) + " " + OpText(c.op) + " $" + Itoa(c.place)
  }

  function CondsText(cs: seq<Cond>): string {
    if cs == [] then "" else CondsText(cs[..|cs| - 1]) + CondText(cs[|cs| - 1])
  }

  function ClauseText(keyword: string, place: Option<nat>): string {
    if place.Some? then keyword + "$" + Itoa(place.value) else ""
  }

  function Render(q: Sql): string {
    Head() + CondsText(q.conds) + ORDER + ClauseText(" LIMIT ", q.limitAt) + ClauseText(" OFFSET ", q.offsetAt)
  }

  // ---------------------------------------------------------------- building

  /** A query under construction: the arguments collected so far number the next placeholder. */
  datatype Draft = Draft(conds: seq<Cond>, args: seq<Arg>)

  function Where(d: Draft, wanted: bool, column: Column, op: Op, arg: Arg): Draft {
    if wanted then Draft(d.conds + [Cond(column, op, |d.args| + 1)], d.args + [arg]) else d
  }

  function Conditions(p: Params): Draft {
    var d := Where(Draft([], []), p.tenant != "", TenantId, Equal, Word(p.tenant));
    var d := Where(d, p.user != "", UserId, Equal, Word(p.user));
    var d := Where(d, p.tool != "", ToolName, Equal, Word(p.tool));
    var d := Where(d, p.start != ZERO_TIME, Timestamp, AtLeast, Time(p.start));
    Where(d, p.end != ZERO_TIME, Timestamp, AtMost, Time(p.end))
  }

  function Build(p: Params): (Sql, seq<Arg>) {
    var d := Conditions(p);
    var limitAt := if p.limit > 0 then Some(|d.args| + 1) else None;
    var args := if p.limit > 0 then d.args + [Number(p.limit)] else d.args;
    var offsetAt := if p.offset > 0 then Some(|args| + 1) else None;
    (Sql(d.conds, limitAt, offsetAt), if p.offset > 0 then args + [Number(p.offset)] else args)
  }

  /** The source's construction: text, arguments and the next placeholder number grow side by side. */
  method BuildText(p: Params) returns (query: string, args: seq<Arg>)
    ensures query == Render(Build(p).0) && args == Build(p).1
  {
    hide Head, CondsText, ClauseText, Conditions, Render, Build;
    var argIdx: nat;
    query, args, argIdx := AddConditions(p);
    query := query + ORDER;
    query, args, argIdx := AddClause(query, args, argIdx, p.limit, " LIMIT ");
    query, args, argIdx := AddClause(query, args, argIdx, p.offset, " OFFSET ");
    RenderBuild(p);
  }

  /** The optional conditions, one after the other. */
  method AddConditions(p: Params) returns (query: string, args: seq<Arg>, argIdx: nat)
    ensures query == Head() + CondsText(Conditions(p).conds) && args == Conditions(p).args && argIdx == |args| + 1
  {
    hide Head, CondsText, Where;
    query := Head();
    args := [];
    argIdx := 1;
    ghost var d := Draft([], []);
    NoConds(query);
    query, args, argIdx, d := AddCondition(query, args, argIdx, d, p.tenant != "", TenantId, Equal, Word(p.tenant));
    query, args, argIdx, d := AddCondition(query, args, argIdx, d, p.user != "", UserId, Equal, Word(p.user));
    query, args, argIdx, d := AddCondition(query, args, argIdx, d, p.tool != "", ToolName, Equal, Word(p.tool));
    var from, to := p.start != ZERO_TIME, p.end != ZERO_TIME;
    query, args, argIdx, d := AddCondition(query, args, argIdx, d, from, Timestamp, AtLeast, Time(p.start));
    query, args, argIdx, d := AddCondition(query, args, argIdx, d, to, Timestamp, AtMost, Time(p.end));
    assert d == Conditions(p);
  }

  lemma RenderBuild(p: Params)
    ensures var d := Conditions(p);
            var args := if p.limit > 0 then d.args + [Number(p.limit)] else d.args;
            && Build(p).1 == (if p.offset > 0 then args + [Number(p.offset)] else args)
            && Render(Build(p).0)
               == Head() + CondsText(d.conds) + ORDER
                  + ClauseText(" LIMIT ", if p.limit > 0 then Some(|d.args| + 1) else None)
                  + ClauseText(" OFFSET ", if p.offset > 0 then Some(|args| + 1) else None)
  {
    hide Head, CondsText, ClauseText, Conditions;
  }

  lemma NoConds(head: string)
    ensures head + CondsText([]) == head
  {}

  method AddClause(query: string, args: seq<Arg>, argIdx: nat, n: int, keyword: string)
    returns (query': string, args': seq<Arg>, argIdx': nat)
    requires argIdx == |args| + 1
    ensures query' == query + ClauseText(keyword, if n > 0 then Some(argIdx) else None)
    ensures args' == (if n > 0 then args + [Number(n)] else args) && argIdx' == |args'| + 1
  {
    query', args', argIdx' := query, args, argIdx;
    if n > 0 {
      query' := query + (keyword + "$" + Itoa(argIdx));
      args' := args + [Number(n)];
      argIdx' := argIdx + 1;
    }
  }

  method AddCondition(query: string, args: seq<Arg>, argIdx: nat, ghost d: Draft, wanted: bool, column: Column,
                      op: Op, arg: Arg)
    returns (query': string, args': seq<Arg>, argIdx': nat, ghost d': Draft)
    requires query == Head() + CondsText(d.conds) && args == d.args && argIdx == |args| + 1
    ensures d' == Where(d, wanted, column, op, arg)
    ensures query' == Head() + CondsText(d'.conds) && args' == d'.args && argIdx' == |args'| + 1
  {
    hide Head, ColumnText, OpText, Itoa;
    query', args', argIdx', d' := query, args, argIdx, Where(d, wanted, column, op, arg);
    if wanted {
      query' := query + (" AND " + ColumnText(column) + " " + OpText(op) + " $" + Itoa(argIdx));
      args' := args + [arg];
      argIdx' := argIdx + 1;
      assert d'.conds[..|d.conds|] == d.conds;
      var c := CondsText(d.conds);
      assert Head() + c + CondText(d'.conds[|d.conds|]) == Head() + (c + CondText(d'.conds[|d.conds|]));
    }
  }

  // ---------------------------------------------------------------- placeholders in the text

  function Run(s: string): (n: nat)
    ensures n <= |s|
  {
    if s != "" && '0' <= s[0] <= '9' then 1 + Run(s[1..]) else 0
  }

  /** The numbers after the dollar signs of a text, in order. */
  function Scan(s: string): seq<int>
    decreases |s|
  {
    if s == "" then []
    else if s[0] == '$' then
      var n := Run(s[1..]);
      [Atoi(s[1..][..n])] + Scan(s[1..][n..])
    else Scan(s[1..])
  }

  ghost predicate NoDigitFirst(s: string) {
    s == "" || !('0' <= s[0] <= '9')
  }

  lemma {:induction false} RunConcat(a: string, b: string)
    requires NoDigitFirst(b)
    ensures Run(a + b) == Run(a)
  {
    if a == "" {
      assert a + b == b;
    } else {
      assert (a + b)[1..] == a[1..] + b;
      RunConcat(a[1..], b);
    }
  }

  lemma {:induction false} ScanConcat(a: string, b: string)
    requires NoDigitFirst(b)
    ensures Scan(a + b) == Scan(a) + Scan(b)
    decreases |a|
  {
    hide Atoi, Run;
    if a == "" {
      assert a + b == b;
    } else {
      var t := a[1..];
      assert (a + b)[1..] == t + b && (a + b)[0] == a[0];
      if a[0] == '$' {
        RunConcat(t, b);
        var n := Run(t);
        assert (t + b)[..n] == t[..n] && (t + b)[n..] == t[n..] + b;
        ScanConcat(t[n..], b);
        assert [Atoi(t[..n])] + (Scan(t[n..]) + Scan(b)) == [Atoi(t[..n])] + Scan(t[n..]) + Scan(b);
      } else {
        ScanConcat(t, b);
      }
    }
  }

  lemma {:induction false} ScanPlain(s: string)
    requires '$' !in s
    ensures Scan(s) == []
    decreases |s|
  {
    if s != "" {
      ScanPlain(s[1..]);
    }
  }

  lemma {:induction false} RunDigits(s: string)
    requires forall c :: c in s ==> '0' <= c <= '9'
    ensures Run(s) == |s|
  {
    if s != "" {
      assert s[0] in s && forall c :: c in s[1..] ==> c in s;
      RunDigits(s[1..]);
    }
  }

  /** A plain text followed by a numbered placeholder holds just that number. */
  lemma ScanPlaceholder(text: string, n: nat)
    requires '$' !in text
    ensures Scan(text + ("$" + Itoa(n))) == [n]
  {
    var s := "$" + Itoa(n);
    ScanPlain(text);
    ScanConcat(text, s);
    AtoiItoa(n);
    assert s[1..] == Itoa(n);
    RunDigits(Itoa(n));
    assert Itoa(n)[..|Itoa(n)|] == Itoa(n) && Itoa(n)[|Itoa(n)|..] == "";
  }

  /** The placeholders of a query in the order they are written. */
  function Places(q: Sql): seq<int> {
    CondPlaces(q.conds) + (if q.limitAt.Some? then [q.limitAt.value] else [])
        + (if q.offsetAt.Some? then [q.offsetAt.value] else [])
  }

  function CondPlaces(cs: seq<Cond>): seq<int> {
    seq(|cs|, i requires 0 <= i < |cs| => cs[i].place)
  }

  lemma ScanCond(c: Cond)
    ensures Scan(CondText(c)) == [c.place] && NoDigitFirst(CondText(c))
  {
    var text := " AND " + ColumnText(c.column) + " " + OpText(c.op) + " ";
    assert CondText(c) == text + ("$" + Itoa(c.place));
    ScanPlaceholder(text, c.place);
  }

  lemma ScanNothing()
    ensures Scan("") == []
  {}

  lemma {:induction false} ScanConds(cs: seq<Cond>)
    ensures Scan(CondsText(cs)) == CondPlaces(cs) && NoDigitFirst(CondsText(cs))
  {
    hide Scan, CondText;
    if cs == [] {
      ScanNothing();
    } else {
      var init, c := cs[..|cs| - 1], cs[|cs| - 1];
      ScanConds(init);
      ScanCond(c);
      ScanConcat(CondsText(init), CondText(c));
      assert CondPlaces(cs) == CondPlaces(init) + [c.place];
    }
  }

  lemma ScanClause(keyword: string, place: Option<nat>)
    requires keyword != "" && keyword[0] == ' ' && '$' !in keyword
    ensures Scan(ClauseText(keyword, place)) == (if place.Some? then [place.value] else [])
    ensures NoDigitFirst(ClauseText(keyword, place))
  {
    if place.Some? {
      assert ClauseText(keyword, place) == keyword + ("$" + Itoa(place.value));
      ScanPlaceholder(keyword, place.value);
    }
  }

  lemma {:induction false} CommaJoinPlain(parts: seq<string>)
    requires forall i :: 0 <= i < |parts| ==> '$' !in parts[i]
    ensures '$' !in CommaJoin(parts)
  {
    if |parts| > 1 {
      CommaJoinPlain(parts[1..]);
    }
  }

  lemma FromPlain()
    ensures '$' !in FromText()
  {}

  lemma ColumnPlain(i: nat)
    requires i < |COLUMNS|
    ensures '$' !in COLUMNS[i]
  {
    assert |COLUMNS| == 12;
    if i < 4 {
      assert COLUMNS[i] == "id" || COLUMNS[i] == "tenant_id" || COLUMNS[i] == "user_id" || COLUMNS[i] == "tool_name";
    } else if i < 8 {
      assert COLUMNS[i] == "server_id" || COLUMNS[i] == "timestamp" || COLUMNS[i] == "duration_ns"
          || COLUMNS[i] == "tokens_in";
    } else {
      assert COLUMNS[i] == "tokens_out" || COLUMNS[i] == "success" || COLUMNS[i] == "error_code"
          || COLUMNS[i] == "metadata";
    }
  }

  lemma HeadPlain()
    ensures '$' !in Head()
  {
    hide CommaJoin, FromText;
    forall i | 0 <= i < |COLUMNS| ensures '$' !in COLUMNS[i] { ColumnPlain(i); }
    CommaJoinPlain(COLUMNS);
    FromPlain();
  }

  /** What a reader of the text sees are the placeholders of the query. */
  lemma ScanRender(q: Sql)
    ensures Scan(Render(q)) == Places(q)
  {
    hide Scan, Head, CondsText, ClauseText;
    var conds, order := CondsText(q.conds), ORDER;
    var lim, off := ClauseText(" LIMIT ", q.limitAt), ClauseText(" OFFSET ", q.offsetAt);
    HeadPlain();
    ScanPlain(Head());
    ScanPlain(order);
    ScanConds(q.conds);
    ScanClause(" LIMIT ", q.limitAt);
    ScanClause(" OFFSET ", q.offsetAt);
    ScanConcat(Head(), conds);
    ScanConcat(Head() + conds, order);
    ScanConcat(Head() + conds + order, lim);
    ScanConcat(Head() + conds + order + lim, off);
  }

  /** Condition `i` refers to argument `i`. */
  ghost predicate Numbered(d: Draft) {
    |d.conds| == |d.args| && forall i :: 0 <= i < |d.conds| ==> d.conds[i].place == i + 1
  }

  lemma WhereNumbered(d: Draft, wanted: bool, column: Column, op: Op, arg: Arg)
    requires Numbered(d)
    ensures Numbered(Where(d, wanted, column, op, arg))
  {}

  lemma ConditionsNumbered(p: Params)
    ensures Numbered(Conditions(p))
  {
    hide Where, Numbered;
    var d0 := Draft([], []);
    assert Numbered(d0) by { NothingNumbered(); }
    var d1 := Where(d0, p.tenant != "", TenantId, Equal, Word(p.tenant));
    WhereNumbered(d0, p.tenant != "", TenantId, Equal, Word(p.tenant));
    var d2 := Where(d1, p.user != "", UserId, Equal, Word(p.user));
    WhereNumbered(d1, p.user != "", UserId, Equal, Word(p.user));
    var d3 := Where(d2, p.tool != "", ToolName, Equal, Word(p.tool));
    WhereNumbered(d2, p.tool != "", ToolName, Equal, Word(p.tool));
    var d4 := Where(d3, p.start != ZERO_TIME, Timestamp, AtLeast, Time(p.start));
    WhereNumbered(d3, p.start != ZERO_TIME, Timestamp, AtLeast, Time(p.start));
    WhereNumbered(d4, p.end != ZERO_TIME, Timestamp, AtMost, Time(p.end));
  }

  lemma NothingNumbered()
    ensures Numbered(Draft([], []))
  {}

  /** The text of every built query uses $1 .. $k, once each and in order, for k arguments. */
  lemma PlaceholdersInOrder(p: Params)
    ensures var (q, args) := Build(p);
            Scan(Render(q)) == seq(|args|, i requires 0 <= i < |args| => i + 1)
  {
    hide Conditions, Scan, Render;
    ScanRender(Build(p).0);
    ConditionsNumbered(p);
  }

  // ---------------------------------------------------------------- meaning

  /** Text columns are only ever compared for equality; an order on text is given no meaning. */
  predicate TextHolds(s: string, op: Op, a: Arg) {
    op.Equal? && a.Word? && s == a.s
  }

  predicate TimeHolds(t: int, op: Op, u: int) {
    match op
    case Equal => t == u
    case AtLeast => t >= u
    case AtMost => t <= u
  }

  predicate Holds(e: Event, c: Cond, args: seq<Arg>)
    requires 1 <= c.place <= |args|
  {
    var a := args[c.place - 1];
    match c.column
    case TenantId => TextHolds(e.tenant, c.op, a)
    case UserId => TextHolds(e.user, c.op, a)
    case ToolName => TextHolds(e.tool, c.op, a)
    case Timestamp => a.Time? && TimeHolds(e.timestamp, c.op, a.t)
  }

  ghost predicate AllHold(e: Event, cs: seq<Cond>, args: seq<Arg>) {
    forall i :: 0 <= i < |cs| ==> 1 <= cs[i].place <= |args| && Holds(e, cs[i], args)
  }

  /** Adding a wanted condition narrows the draft by exactly that condition. */
  lemma WhereMeans(d: Draft, wanted: bool, column: Column, op: Op, arg: Arg, e: Event)
    requires Numbered(d)
    ensures var d' := Where(d, wanted, column, op, arg);
            && Numbered(d')
            && (AllHold(e, d'.conds, d'.args) <==>
                  AllHold(e, d.conds, d.args) && (wanted ==> Holds(e, Cond(column, op, 1), [arg])))
  {
    hide Holds;
    if wanted {
      var d' := Where(d, wanted, column, op, arg);
      var n := |d.conds|;
      assert forall i :: 0 <= i < n ==> d'.conds[i] == d.conds[i];
      forall i | 0 <= i < n ensures Holds(e, d'.conds[i], d'.args) <==> Holds(e, d.conds[i], d.args) {
        SameArgument(e, d.conds[i], d.args, d'.args);
      }
      SameArgumentAt(e, d'.conds[n], d'.args, Cond(column, op, 1), [arg]);
      if AllHold(e, d'.conds, d'.args) {
        forall i | 0 <= i < n ensures 1 <= d.conds[i].place <= |d.args| && Holds(e, d.conds[i], d.args) {
          assert Holds(e, d'.conds[i], d'.args);
        }
        assert Holds(e, d'.conds[n], d'.args);
      }
    }
  }

  /** A condition depends on its own argument only. */
  lemma SameArgument(e: Event, c: Cond, args: seq<Arg>, more: seq<Arg>)
    requires 1 <= c.place <= |args| && args <= more
    ensures Holds(e, c, more) <==> Holds(e, c, args)
  {
    assert more[c.place - 1] == args[c.place - 1];
  }

  lemma SameArgumentAt(e: Event, c: Cond, args: seq<Arg>, c': Cond, args': seq<Arg>)
    requires 1 <= c.place <= |args| && 1 <= c'.place <= |args'| && args[c.place - 1] == args'[c'.place - 1]
    requires c.column == c'.column && c.op == c'.op
    ensures Holds(e, c, args) <==> Holds(e, c', args')
  {}

  lemma ConditionsMean(p: Params, e: Event)
    ensures AllHold(e, Conditions(p).conds, Conditions(p).args) <==> Matches(e, p)
  {
    hide AllHold, Where;
    var d0 := Draft([], []);
    assert AllHold(e, d0.conds, d0.args) by { NothingHolds(e); }
    var d1 := Where(d0, p.tenant != "", TenantId, Equal, Word(p.tenant));
    WhereMeans(d0, p.tenant != "", TenantId, Equal, Word(p.tenant), e);
    var d2 := Where(d1, p.user != "", UserId, Equal, Word(p.user));
    WhereMeans(d1, p.user != "", UserId, Equal, Word(p.user), e);
    var d3 := Where(d2, p.tool != "", ToolName, Equal, Word(p.tool));
    WhereMeans(d2, p.tool != "", ToolName, Equal, Word(p.tool), e);
    var d4 := Where(d3, p.start != ZERO_TIME, Timestamp, AtLeast, Time(p.start));
    WhereMeans(d3, p.start != ZERO_TIME, Timestamp, AtLeast, Time(p.start), e);
    WhereMeans(d4, p.end != ZERO_TIME, Timestamp, AtMost, Time(p.end), e);
  }

  lemma NothingHolds(e: Event)
    ensures AllHold(e, [], [])
  {}

  /** The query's WHERE clause is true of an event exactly when the memory store's filter is. */
  lemma QueryMeansMatches(p: Params, e: Event)
    ensures var (q, args) := Build(p); AllHold(e, q.conds, args) <==> Matches(e, p)
  {
    hide Conditions, Holds;
    var d := Conditions(p);
    ConditionsMean(p, e);
    ConditionsNumbered(p);
    var args := Build(p).1;
    assert d.args <= args;
    forall i | 0 <= i < |d.conds| ensures Holds(e, d.conds[i], args) <==> Holds(e, d.conds[i], d.args) {
      SameArgument(e, d.conds[i], d.args, args);
    }
  }

  function ArgNumber(args: seq<Arg>, at: Option<nat>): int {
    if at.Some? && 1 <= at.value <= |args| && args[at.value - 1].Number? then args[at.value - 1].n else 0
  }

  /** A possible answer of the database: some newest-first arrangement of the rows that satisfy the
      conjuncts, cut by OFFSET and then LIMIT. */
  ghost predicate Answers(r: seq<Event>, q: Sql, args: seq<Arg>, rows: seq<Event>) {
    exists w :: && Sorting(w, Filter(rows, Selected(q, args)))
                && r == Cut(w, ArgNumber(args, q.offsetAt), ArgNumber(args, q.limitAt), q.limitAt.Some?)
  }

  ghost function Selected(q: Sql, args: seq<Arg>): Event -> bool {
    (e: Event) => AllHold(e, q.conds, args)
  }

  function Cut(w: seq<Event>, offset: int, limit: int, limited: bool): seq<Event> {
    var from := if offset < 0 then 0 else if offset > |w| then |w| else offset;
    var rest := w[from..];
    if limited && 0 <= limit < |rest| then rest[..limit] else rest
  }

  lemma {:induction false} FilterSame(es: seq<Event>, f: Event -> bool, g: Event -> bool)
    requires forall e :: f(e) <==> g(e)
    ensures Filter(es, f) == Filter(es, g)
  {
    if es != [] {
      FilterSame(es[..|es| - 1], f, g);
    }
  }

  lemma CutIsPage(w: seq<Event>, p: Params)
    ensures var (q, args) := Build(p);
            Cut(w, ArgNumber(args, q.offsetAt), ArgNumber(args, q.limitAt), q.limitAt.Some?)
                == Page(w, p.offset, p.limit)
  {
    hide Conditions;
    assert w[0..] == w;
    assert w[|w|..] == [];
  }

  /** Every answer of the database is a page of the memory store up to the order of equal timestamps:
      same length, same timestamps, cut from a rearrangement of the same matching events. */
  lemma QueriesAgreeUpToTies(rows: seq<Event>, p: Params, r: seq<Event>, sort: seq<Event> -> seq<Event>)
    requires var (q, args) := Build(p); Answers(r, q, args, rows)
    requires Sorts(sort)
    ensures Times(r) == Times(Page(sort(Matching(rows, p)), p.offset, p.limit))
    ensures exists w :: Sorting(w, Matching(rows, p)) && r == Page(w, p.offset, p.limit)
  {
    hide Build, Filter, AllHold;
    var (q, args) := Build(p);
    var w :| && Sorting(w, Filter(rows, Selected(q, args)))
             && r == Cut(w, ArgNumber(args, q.offsetAt), ArgNumber(args, q.limitAt), q.limitAt.Some?);
    forall e
      ensures Selected(q, args)(e) <==> Wanted(p)(e)
    {
      QueryMeansMatches(p, e);
    }
    FilterSame(rows, Selected(q, args), Wanted(p));
    CutIsPage(w, p);
    var m := sort(Matching(rows, p));
    SortsAgreeOnTimes(w, m);
    PageTimes(w, m, p.offset, p.limit);
  }

  lemma PageTimes(a: seq<Event>, b: seq<Event>, offset: int, limit: int)
    requires Times(a) == Times(b)
    ensures Times(Page(a, offset, limit)) == Times(Page(b, offset, limit))
  {
    assert |a| == |Times(a)| == |b|;
    assert forall i :: 0 <= i < |a| ==> a[i].timestamp == Times(a)[i] == b[i].timestamp;
  }
}
