/** A reader of the query text: literal SQL words are taken apart into columns, operators, placeholders,
    order, LIMIT and OFFSET, so that what the builder writes means what it is meant to. */
module SqlReader {
  import opened Common
  import opened Text
  import opened UsageStore
  import opened SqlQuery

  // ---------------------------------------------------------------- words

  predicate Gap(c: char) {
    c == ' ' || c == '\n' || c == '\t' || c == ','
  }

  /** The length of the word a text begins with. */
  function WordEnd(s: string): (n: nat)
    ensures n <= |s|
    ensures s != "" && !Gap(s[0]) ==> n > 0
  {
    if s == "" || Gap(s[0]) then 0 else 1 + WordEnd(s[1..])
  }

  function Words(s: string): seq<string>
    decreases |s|
  {
    if s == "" then []
    else if Gap(s[0]) then Words(s[1..])
    else [s[..WordEnd(s)]] + Words(s[WordEnd(s)..])
  }

  ghost predicate Word(w: string) {
    w != "" && forall i :: 0 <= i < |w| ==> !Gap(w[i])
  }

  ghost predicate Apart(s: string) {
    s == "" || Gap(s[0])
  }

  lemma {:induction false} WordEndConcat(a: string, b: string)
    requires Apart(b)
    ensures WordEnd(a + b) == WordEnd(a)
  {
    if a == "" {
      assert a + b == b;
    } else if !Gap(a[0]) {
      assert (a + b)[1..] == a[1..] + b;
      WordEndConcat(a[1..], b);
    }
  }

  /** Text that begins with a gap adds its own words. */
  lemma {:induction false} WordsConcat(a: string, b: string)
    requires Apart(b)
    ensures Words(a + b) == Words(a) + Words(b)
    decreases |a|
  {
    if a == "" {
      assert a + b == b;
    } else if Gap(a[0]) {
      assert (a + b)[1..] == a[1..] + b;
      WordsConcat(a[1..], b);
    } else {
      var n := WordEnd(a);
      WordEndConcat(a, b);
      assert (a + b)[..n] == a[..n] && (a + b)[n..] == a[n..] + b;
      WordsConcat(a[n..], b);
      assert [a[..n]] + (Words(a[n..]) + Words(b)) == [a[..n]] + Words(a[n..]) + Words(b);
    }
  }

  lemma {:induction false} WordEndWord(w: string)
    requires forall i :: 0 <= i < |w| ==> !Gap(w[i])
    ensures WordEnd(w) == |w|
  {
    if w != "" {
      WordEndWord(w[1..]);
    }
  }

  lemma OneWord(w: string)
    requires Word(w)
    ensures Words(w) == [w]
  {
    WordEndWord(w);
    assert w[..|w|] == w && w[|w|..] == "";
  }

  /** Gaps before a word do not matter. */
  lemma {:induction false} SpacedWord(gaps: string, w: string)
    requires Word(w) && forall i :: 0 <= i < |gaps| ==> Gap(gaps[i])
    ensures Words(gaps + w) == [w]
  {
    if gaps == "" {
      assert gaps + w == w;
      OneWord(w);
    } else {
      assert (gaps + w)[1..] == gaps[1..] + w;
      SpacedWord(gaps[1..], w);
    }
  }

  // ---------------------------------------------------------------- reading

  function ReadColumn(w: string): Option<Column> {
    if w == "tenant_id" then Some(TenantId) else if w == "user_id" then Some(UserId)
    else if w == "tool_name" then Some(ToolName) else if w == "timestamp" then Some(Timestamp) else None
  }

  function ReadOp(w: string): Option<Op> {
    if w == "=" then Some(Equal) else if w == ">=" then Some(AtLeast) else if w == "<=" then Some(AtMost) else None
  }

  function ReadPlace(w: string): Option<nat> {
    if |w| > 1 && w[0] == '$' && (forall i :: 1 <= i < |w| ==> '0' <= w[i] <= '9') && Atoi(w[1..]) >= 0
    then Some(Atoi(w[1..])) else None
  }

  function HeadWords(): seq<string> {
    ["SELECT"]
    + ["id", "tenant_id", "user_id", "tool_name", "server_id", "timestamp", "duration_ns", "tokens_in", "tokens_out",
       "success", "error_code", "metadata"]
    + ["FROM", "usage_events", "WHERE", "1=1"]
  }

  /** LIMIT and OFFSET, each optional. */
  function ReadClauses(ws: seq<string>, conds: seq<Cond>): Option<Sql> {
    var limitAt := if |ws| >= 2 && ws[0] == "LIMIT" then ReadPlace(ws[1]) else None;
    var rest := if limitAt.Some? then ws[2..] else ws;
    var offsetAt := if |rest| >= 2 && rest[0] == "OFFSET" then ReadPlace(rest[1]) else None;
    var left := if offsetAt.Some? then rest[2..] else rest;
    if left == [] then Some(Sql(conds, limitAt, offsetAt)) else None
  }

  /** Conditions, then the order, which must be newest first. */
  function ReadTail(ws: seq<string>, conds: seq<Cond>): Option<Sql>
    decreases |ws|
  {
    if |ws| < 4 then None
    else if ws[0] == "AND" then
      var column, op, place := ReadColumn(ws[1]), ReadOp(ws[2]), ReadPlace(ws[3]);
      if column.Some? && op.Some? && place.Some?
      then ReadTail(ws[4..], conds + [Cond(column.value, op.value, place.value)])
      else None
    else if ws[0] == "ORDER" && ws[1] == "BY" && ws[2] == "timestamp" && ws[3] == "DESC"
    then ReadClauses(ws[4..], conds)
    else None
  }

  function ReadSql(text: string): Option<Sql> {
    var ws, head := Words(text), HeadWords();
    if head <= ws then ReadTail(ws[|head|..], []) else None
  }

  // ---------------------------------------------------------------- the words of a query

  function PlaceWord(place: nat): string {
    "$" + Itoa(place)
  }

  lemma PlaceReads(place: nat)
    ensures Word(PlaceWord(place)) && ReadPlace(PlaceWord(place)) == Some(place)
  {
    AtoiItoa(place);
    var w := PlaceWord(place);
    assert w[1..] == Itoa(place);
    forall i | 1 <= i < |w| ensures '0' <= w[i] <= '9' {
      assert w[i] == Itoa(place)[i - 1] && w[i] in Itoa(place);
    }
  }

  lemma ColumnReads(c: Column)
    ensures Word(ColumnText(c)) && ReadColumn(ColumnText(c)) == Some(c)
  {}

  lemma OpReads(op: Op)
    ensures Word(OpText(op)) && ReadOp(OpText(op)) == Some(op)
  {}

  function CondWords(c: Cond): seq<string> {
    ["AND", ColumnText(c.column), OpText(c.op), PlaceWord(c.place)]
  }

  /** A word after a space. */
  lemma NextWord(a: string, w: string)
    requires Word(w)
    ensures Words(a + (" " + w)) == Words(a) + [w]
  {
    SpacedWord(" ", w);
    WordsConcat(a, " " + w);
  }

  lemma CondReads(c: Cond)
    ensures Words(CondText(c)) == CondWords(c) && Apart(CondText(c))
  {
    hide Words, ColumnText, OpText, PlaceWord, Word;
    var column, op, place := ColumnText(c.column), OpText(c.op), PlaceWord(c.place);
    ColumnReads(c.column);
    OpReads(c.op);
    PlaceReads(c.place);
    AndIsWord();
    var s1 := " " + "AND";
    var s2 := s1 + (" " + column);
    var s3 := s2 + (" " + op);
    SpacedWord(" ", "AND");
    NextWord(s1, column);
    NextWord(s2, op);
    NextWord(s3, place);
    CondSpelled(c);
  }

  lemma CondSpelled(c: Cond)
    ensures CondText(c) == " " + "AND" + (" " + ColumnText(c.column)) + (" " + OpText(c.op))
        + (" " + PlaceWord(c.place))
  {
    hide ColumnText, OpText, Itoa;
    assert " AND " == " " + "AND" + " ";
    assert " $" == " " + "$";
  }

  lemma AndIsWord()
    ensures Word("AND")
  {}

  function AllCondWords(cs: seq<Cond>): seq<string> {
    if cs == [] then [] else AllCondWords(cs[..|cs| - 1]) + CondWords(cs[|cs| - 1])
  }

  lemma {:induction false} CondsRead(cs: seq<Cond>)
    ensures Words(CondsText(cs)) == AllCondWords(cs) && Apart(CondsText(cs))
  {
    hide CondText, CondWords;
    if cs != [] {
      var init, c := cs[..|cs| - 1], cs[|cs| - 1];
      CondsRead(init);
      CondReads(c);
      WordsConcat(CondsText(init), CondText(c));
    }
  }

  lemma OrderReads()
    ensures Words(ORDER) == ["ORDER", "BY", "timestamp", "DESC"] && Apart(ORDER)
  {
    hide Words;
    var s1 := " " + "ORDER";
    var s2 := s1 + (" " + "BY");
    var s3 := s2 + (" " + "timestamp");
    SpacedWord(" ", "ORDER");
    NextWord(s1, "BY");
    NextWord(s2, "timestamp");
    NextWord(s3, "DESC");
    assert ORDER == s3 + (" " + "DESC");
  }

  function ClauseWords(keyword: string, place: Option<nat>): seq<string> {
    if place.Some? then [keyword, PlaceWord(place.value)] else []
  }

  lemma ClauseReads(keyword: string, place: Option<nat>)
    requires Word(keyword)
    ensures Words(ClauseText(" " + keyword + " ", place)) == ClauseWords(keyword, place)
    ensures Apart(ClauseText(" " + keyword + " ", place))
  {
    hide Word;
    if place.Some? {
      hide Words;
      PlaceReads(place.value);
      SpacedWord(" ", keyword);
      NextWord(" " + keyword, PlaceWord(place.value));
      assert ClauseText(" " + keyword + " ", place) == " " + keyword + (" " + PlaceWord(place.value));
    }
  }

  lemma {:induction false} ColumnsRead(parts: seq<string>)
    requires forall i :: 0 <= i < |parts| ==> Word(parts[i])
    ensures Words(CommaJoin(parts)) == parts
  {
    if |parts| == 1 {
      OneWord(parts[0]);
    } else if |parts| > 1 {
      var rest := CommaJoin(parts[1..]);
      ColumnsRead(parts[1..]);
      OneWord(parts[0]);
      assert parts[0] + ", " + rest == parts[0] + (", " + rest);
      WordsConcat(parts[0], ", " + rest);
      assert (", " + rest)[1..] == " " + rest && (" " + rest)[1..] == rest;
      assert parts == [parts[0]] + parts[1..];
    }
  }

  lemma ColumnsAreWords()
    ensures forall i :: 0 <= i < |COLUMNS| ==> Word(COLUMNS[i])
  {
    forall i | 0 <= i < |COLUMNS| ensures Word(COLUMNS[i]) {
      if i < 4 {
        assert COLUMNS[i] == "id" || COLUMNS[i] == "tenant_id" || COLUMNS[i] == "user_id" || COLUMNS[i] == "tool_name";
      } else if i < 8 {
        assert COLUMNS[i] == "server_id" || COLUMNS[i] == "timestamp" || COLUMNS[i] == "duration_ns"
            || COLUMNS[i] == "tokens_in";
      } else {
        assert COLUMNS[i] == "tokens_out" || COLUMNS[i] == "success" || COLUMNS[i] == "error_code"
            || COLUMNS[i] == "metadata";
      }
    }
  }

  lemma TwoWords(gaps: string, first: string, second: string)
    requires Word(first) && Word(second) && gaps != "" && forall i :: 0 <= i < |gaps| ==> Gap(gaps[i])
    ensures Words(gaps + first + (" " + second)) == [first, second] && Apart(gaps + first + (" " + second))
  {
    SpacedWord(gaps, first);
    NextWord(gaps + first, second);
  }

  lemma FromUsageEvents()
    ensures Words("\n\t\tFROM usage_events") == ["FROM", "usage_events"] && Apart("\n\t\tFROM usage_events")
  {
    hide Words;
    TwoWords("\n\t\t", "FROM", "usage_events");
    assert "\n\t\t" + "FROM" + (" " + "usage_events") == "\n\t\tFROM usage_events";
  }

  lemma WhereTrue()
    ensures Words("\n\t\tWHERE 1=1") == ["WHERE", "1=1"] && Apart("\n\t\tWHERE 1=1")
  {
    hide Words;
    TwoWords("\n\t\t", "WHERE", "1=1");
    assert "\n\t\t" + "WHERE" + (" " + "1=1") == "\n\t\tWHERE 1=1";
  }

  lemma FromReads()
    ensures Words(FromText()) == ["FROM", "usage_events", "WHERE", "1=1"] && Apart(FromText())
  {
    hide Words;
    var a, b, c := "\n\t\tFROM usage_events", "\n\t\tWHERE 1=1", "\n\t";
    FromUsageEvents();
    WhereTrue();
    TrailingGap();
    WordsConcat(a, b);
    WordsConcat(a + b, c);
  }

  lemma TrailingGap()
    ensures Words("\n\t") == []
  {
    assert "\n\t"[1..] == "\t" && "\t"[1..] == "";
  }

  lemma SelectReads(columns: string)
    ensures Words("\n\t\tSELECT " + columns) == ["SELECT"] + Words(columns)
  {
    SpacedWord("\n\t\t", "SELECT");
    var a, b := "\n\t\t" + "SELECT", " " + columns;
    assert "\n\t\tSELECT " + columns == a + b;
    WordsConcat(a, b);
    assert b[1..] == columns;
  }

  lemma HeadReads()
    ensures Words(Head()) == HeadWords()
  {
    hide Words, CommaJoin, FromText;
    var columns := CommaJoin(COLUMNS);
    ColumnsAreWords();
    ColumnsRead(COLUMNS);
    SelectReads(columns);
    FromReads();
    WordsConcat("\n\t\tSELECT " + columns, FromText());
  }

  function TailWords(q: Sql): seq<string> {
    AllCondWords(q.conds) + ["ORDER", "BY", "timestamp", "DESC"]
    + ClauseWords("LIMIT", q.limitAt) + ClauseWords("OFFSET", q.offsetAt)
  }

  lemma RenderWords(q: Sql)
    ensures Words(Render(q)) == HeadWords() + TailWords(q)
  {
    hide Words, Head, CondsText, ClauseText, HeadWords, AllCondWords, ClauseWords, Apart;
    var conds, lim, off := CondsText(q.conds), ClauseText(" LIMIT ", q.limitAt), ClauseText(" OFFSET ", q.offsetAt);
    HeadReads();
    CondsRead(q.conds);
    OrderReads();
    KeywordsRead(q);
    WordsConcat(Head(), conds);
    WordsConcat(Head() + conds, ORDER);
    WordsConcat(Head() + conds + ORDER, lim);
    WordsConcat(Head() + conds + ORDER + lim, off);
    var h, c, o := HeadWords(), AllCondWords(q.conds), ["ORDER", "BY", "timestamp", "DESC"];
    var l, f := ClauseWords("LIMIT", q.limitAt), ClauseWords("OFFSET", q.offsetAt);
    assert h + c + o + l + f == h + (c + o + l + f);
  }

  lemma KeywordsRead(q: Sql)
    ensures Words(ClauseText(" LIMIT ", q.limitAt)) == ClauseWords("LIMIT", q.limitAt)
    ensures Words(ClauseText(" OFFSET ", q.offsetAt)) == ClauseWords("OFFSET", q.offsetAt)
    ensures Apart(ClauseText(" LIMIT ", q.limitAt)) && Apart(ClauseText(" OFFSET ", q.offsetAt))
  {
    hide ClauseText, Words, ClauseWords, Apart;
    assert " " + "LIMIT" + " " == " LIMIT " && " " + "OFFSET" + " " == " OFFSET ";
    ClauseReads("LIMIT", q.limitAt);
    ClauseReads("OFFSET", q.offsetAt);
  }

  // ---------------------------------------------------------------- reading back

  lemma ClausesReadBack(q: Sql)
    ensures ReadClauses(ClauseWords("LIMIT", q.limitAt) + ClauseWords("OFFSET", q.offsetAt), q.conds) == Some(q)
  {
    hide PlaceWord, ReadPlace;
    if q.limitAt.Some? { PlaceReads(q.limitAt.value); }
    if q.offsetAt.Some? { PlaceReads(q.offsetAt.value); }
    var ws := ClauseWords("LIMIT", q.limitAt) + ClauseWords("OFFSET", q.offsetAt);
    if q.limitAt.Some? {
      assert ws[0] == "LIMIT" && ws[1] == PlaceWord(q.limitAt.value);
      assert ws[2..] == ClauseWords("OFFSET", q.offsetAt);
    } else {
      assert ws == ClauseWords("OFFSET", q.offsetAt);
    }
  }

  lemma {:induction false} AllCondWordsFirst(c: Cond, cs: seq<Cond>)
    ensures AllCondWords([c] + cs) == CondWords(c) + AllCondWords(cs)
  {
    hide CondWords;
    if cs == [] {
      assert [c] + cs == [c] && [c][..0] == [];
    } else {
      var init, last := cs[..|cs| - 1], cs[|cs| - 1];
      AllCondWordsFirst(c, init);
      assert ([c] + cs)[..|cs|] == [c] + init;
      assert CondWords(c) + (AllCondWords(init) + CondWords(last))
          == CondWords(c) + AllCondWords(init) + CondWords(last);
    }
  }

  lemma ReadCond(c: Cond, next: seq<string>, done: seq<Cond>)
    ensures ReadTail(CondWords(c) + next, done) == ReadTail(next, done + [c])
  {
    hide ReadColumn, ReadOp, ReadPlace, ColumnText, OpText, PlaceWord, ReadClauses;
    ColumnReads(c.column);
    OpReads(c.op);
    PlaceReads(c.place);
    assert (CondWords(c) + next)[4..] == next;
  }

  lemma ReadOrder(end: seq<string>, done: seq<Cond>)
    ensures ReadTail(["ORDER", "BY", "timestamp", "DESC"] + end, done) == ReadClauses(end, done)
  {
    hide ReadClauses;
    var order := ["ORDER", "BY", "timestamp", "DESC"];
    assert (order + end)[4..] == end;
  }

  lemma {:induction false} TailReadsBack(q: Sql, done: seq<Cond>, cs: seq<Cond>)
    requires q.conds == done + cs
    ensures ReadTail(TailWords(q.(conds := cs)), done) == Some(q)
    decreases |cs|
  {
    hide ReadTail, ReadClauses, ClauseWords, CondWords;
    var order := ["ORDER", "BY", "timestamp", "DESC"];
    var l, f := ClauseWords("LIMIT", q.limitAt), ClauseWords("OFFSET", q.offsetAt);
    if cs == [] {
      assert [] + order + l + f == order + (l + f);
      ReadOrder(l + f, done);
      assert done + cs == done;
      ClausesReadBack(q);
    } else {
      var c, rest := cs[0], cs[1..];
      assert cs == [c] + rest;
      AllCondWordsFirst(c, rest);
      var x, y := CondWords(c), AllCondWords(rest);
      assert x + y + order + l + f == x + (y + order + l + f);
      ReadCond(c, y + order + l + f, done);
      assert done + [c] + rest == q.conds;
      TailReadsBack(q, done + [c], rest);
    }
  }

  /** Reading undoes rendering, for every query. */
  lemma ReadsBack(q: Sql)
    ensures ReadSql(Render(q)) == Some(q)
  {
    hide Words, Render, TailWords, HeadWords, ReadTail;
    RenderWords(q);
    var head := HeadWords();
    assert (head + TailWords(q))[|head|..] == TailWords(q);
    assert [] + q.conds == q.conds;
    TailReadsBack(q, [], q.conds);
  }

  /** The text built for any parameters reads as a newest-first query whose conditions hold of an event
      exactly when the memory store's filter does, and whose LIMIT and OFFSET arguments are the page's. */
  lemma TextMeansMatches(p: Params, e: Event)
    ensures var (q, args) := Build(p);
            var read := ReadSql(Render(q));
            && read.Some?
            && (AllHold(e, read.value.conds, args) <==> Matches(e, p))
            && ArgNumber(args, read.value.limitAt) == (if p.limit > 0 then p.limit else 0)
            && ArgNumber(args, read.value.offsetAt) == (if p.offset > 0 then p.offset else 0)
  {
    var (q, args) := Build(p);
    ReadsBack(q);
    QueryMeansMatches(p, e);
    hide ReadSql, Render, Conditions, AllHold;
  }
}
