/** The paged reader over a user's SQL text (reader/database.go, `SQLReader`).  Every page is a text;
    what it brings is decided by how the database reads it, not by how the expression did. */
module SqlReader {
  import opened Wrappers
  import Strings
  import opened Records
  import opened Sequences
  import opened SqlText
  import opened SqlRoundTrip
  import opened SqlRewrite
  import opened SqlFields
  import opened SqlTokens
  import opened SqlCondition
  import opened SqlStatements
  import opened SqlClauses
  import opened SqlNames
  import opened SqlDatabase
  import opened DatabaseReader

  // ----- Page texts -----

  /** The query has no ORDER BY and a field to make one of. */
  predicate NeedsOrder(p: ParsedSql) { p.orderBy == [] && Fields(p.select) != [] }

  function FirstField(p: ParsedSql): seq<Word>
    requires NeedsOrder(p)
  {
    Fields(p.select)[0]
  }

  /** Without an ORDER BY, the first field is the order. */
  function WithOrder(p: ParsedSql): ParsedSql {
    if NeedsOrder(p) then p.(orderBy := FirstField(p) + [ASC]) else p
  }

  /** The text of the page at that offset. */
  function PageText(q: ParsedSql, b: int, offset: int): seq<Word> {
    var text := SetLimit(Printed(q), b);
    if offset > 0 then text + [Kw(Offset), FormatInt(offset)] else text
  }

  /** What the text is meant to say. */
  function PageQuery(q: ParsedSql, b: int, offset: int): ParsedSql {
    q.(limit := Some(b), offset := if offset > 0 then Some(offset) else q.offset)
  }

  /** The text of the query without LIMIT and OFFSET. */
  function Base(p: ParsedSql): seq<Word> { Printed(p.(limit := None, offset := None)) }

  /** The order chosen for the pages leaves the rest of the query as it is. */
  lemma WithOrderCanonical(p: ParsedSql, q: ParsedSql)
    requires Canonical(p) && !Dangling(p) && q == WithOrder(p)
    ensures SameUpToOrder(p, q) && Canonical(q)
  {
    if q != p {
      AscWord();
      CanonicalLimits(p);
      OrderUncut(q);
      CanonicalExactly(p, q);
    }
  }

  lemma PageQueryExactly(p: ParsedSql, q: ParsedSql, b: int, offset: int)
    requires Canonical(p) && q == WithOrder(p) && 0 <= b <= MAX_INT && 0 <= offset <= MAX_INT
    ensures Canonical(PageQuery(q, b, offset)) <==> !Dangling(p)
  {
    CanonicalLimits(p);
    OrderUncut(PageQuery(q, b, offset));
    CanonicalExactly(p, PageQuery(q, b, offset));
  }

  lemma {:induction false} TailAndLimits(level: nat, p: ParsedSql, p0: ParsedSql)
    requires level <= 4 && p0 == p.(limit := None, offset := None)
    ensures PrintTail(level, p) == PrintTail(level, p0) + PrintLimits(p)
    decreases 4 - level
  {
    if level == 4 {
      assert PrintTail(level, p0) == [];
    } else {
      TailAndLimits(level + 1, p, p0);
      assert Clause(p0, level) == Clause(p, level);
      Regroup(if Clause(p, level) == [] then [] else KeywordWords(level) + Clause(p, level),
              PrintTail(level + 1, p0), PrintLimits(p));
    }
  }

  /** A text is its base and its LIMIT and OFFSET. */
  lemma PrintedBase(p: ParsedSql)
    ensures Printed(p) == Base(p) + PrintLimits(p)
  {
    var p0 := p.(limit := None, offset := None);
    TailAndLimits(WHERE, p, p0);
    Regroup([Kw(Select)] + p.select + [Kw(From)] + p.from_, PrintTail(WHERE, p0), PrintLimits(p));
  }

  lemma {:induction false} TailAndOrder(level: nat, p: ParsedSql, q: ParsedSql)
    requires level <= 3 && p.orderBy == [] && p.limit.None? && p.offset.None?
    requires q.orderBy != [] && q == p.(orderBy := q.orderBy)
    ensures PrintTail(level, q) == PrintTail(level, p) + (KeywordWords(ORDER_BY) + q.orderBy)
    decreases 3 - level
  {
    if level == 3 {
      assert PrintTail(4, p) == PrintTail(4, q) == [] && PrintTail(3, p) == [];
    } else {
      TailAndOrder(level + 1, p, q);
      assert Clause(q, level) == Clause(p, level);
      Regroup(if Clause(p, level) == [] then [] else KeywordWords(level) + Clause(p, level),
              PrintTail(level + 1, p), KeywordWords(ORDER_BY) + q.orderBy);
    }
  }

  /** With the chosen order the base has three more parts behind it. */
  lemma OrderedBase(p: ParsedSql)
    requires NeedsOrder(p)
    ensures Base(WithOrder(p)) == Base(p) + OrderWords(FirstField(p))
  {
    var p0, q0 := p.(limit := None, offset := None), WithOrder(p).(limit := None, offset := None);
    TailAndOrder(WHERE, p0, q0);
    assert KeywordWords(ORDER_BY) + q0.orderBy == OrderWords(FirstField(p));
    Regroup([Kw(Select)] + p.select + [Kw(From)] + p.from_, PrintTail(WHERE, p0), OrderWords(FirstField(p)));
  }

  lemma LimitedText(p: ParsedSql, q: ParsedSql, b: int)
    requires Canonical(p) && !Dangling(p) && q == WithOrder(p)
    ensures SetLimit(Printed(q), b) == Printed(q.(limit := Some(b)))
  {
    WithOrderCanonical(p, q);
    CanonicalRoundTrips(q);
  }

  lemma PageTextPrinted(p: ParsedSql, q: ParsedSql, b: int, offset: int)
    requires Canonical(p) && !Dangling(p) && q == WithOrder(p) && (offset > 0 ==> q.offset.None?)
    ensures PageText(q, b, offset) == Printed(PageQuery(q, b, offset))
  {
    var r := q.(limit := Some(b));
    LimitedText(p, q, b);
    if offset > 0 {
      PrintedBase(r);
      PrintedBase(PageQuery(q, b, offset));
      Regroup(Base(r), [Kw(Limit), FormatInt(b)], [Kw(Offset), FormatInt(offset)]);
    }
  }

  /** With an OFFSET in the query the text has two words too many. */
  lemma PageTextTooLong(p: ParsedSql, q: ParsedSql, b: int, offset: int)
    requires Canonical(p) && !Dangling(p) && q == WithOrder(p) && offset > 0 && q.offset.Some?
    ensures |PageText(q, b, offset)| == |Printed(PageQuery(q, b, offset))| + 2
  {
    LimitedText(p, q, b);
    PrintedBase(q.(limit := Some(b)));
    PrintedBase(PageQuery(q, b, offset));
  }

  /** A page text parses back to the original clauses, the chosen order, the page's limit and its
      offset exactly when the query has no dangling keyword and, behind the first page, no OFFSET. */
  lemma PageParsesExactly(ws: seq<Word>, b: int, offset: int)
    requires Parse(ws).Ok? && 0 <= b <= MAX_INT && 0 <= offset <= MAX_INT
    ensures var p := Parse(ws).value;
      var q := WithOrder(p);
      Parse(PageText(q, b, offset)) == Ok(PageQuery(q, b, offset))
      <==> !Dangling(p) && (offset > 0 ==> p.offset.None?)
  {
    var p := Parse(ws).value;
    var q := WithOrder(p);
    var pq, text := PageQuery(q, b, offset), PageText(q, b, offset);
    ParseIsCanonical(ws);
    PageQueryExactly(p, q, b, offset);
    if !Dangling(p) && offset > 0 && p.offset.Some? {
      PageTextTooLong(p, q, b, offset);
    } else if !Dangling(p) {
      PageTextPrinted(p, q, b, offset);
      CanonicalRoundTrips(pq);
    }
    if Parse(text) == Ok(pq) {
      ParseIsCanonical(text);
      ParsePrintsBack(text);
    }
  }

  // ----- Rows -----

  /** LIMIT and OFFSET can be put behind the query, and an order if the parser found none: for the
      database, too, nothing follows its clauses but the ORDER BY the parser found. */
  predicate Extendable(p: ParsedSql) {
    && Statement(Base(p)).Some? && Ordinary(Statement(Base(p)).value)
    && (p.orderBy != [] <==> EndsInOrder(Statement(Base(p)).value))
    && (NeedsOrder(p) ==> ReadText(FirstField(p)).sections == [])
  }

  /** The queries whose page texts say what is meant. */
  ghost predicate Pageable(ws: seq<Word>, b: int) {
    && Parse(ws).Ok? && !Dangling(Parse(ws).value) && Parse(ws).value.offset.None? && 1 <= b <= MAX_INT
    && Extendable(Parse(ws).value)
  }

  /** The query has an order of its own, or its first field can be sorted by. */
  predicate Sortable(p: ParsedSql) { NeedsOrder(p) ==> SortableBy(FirstField(p)) }

  /** What the database answers to the query in the chosen order, without its LIMIT. */
  function Ordered(ws: seq<Word>, db: Database): Result<seq<Data>, Refusal> {
    match Parse(ws)
    case Err(_) => Err(Malformed)
    case Ok(p) => Execute(db, Base(WithOrder(p)))
  }

  lemma OrderedOrdinary(p: ParsedSql, db: Database)
    requires Extendable(p)
    ensures Statement(Base(WithOrder(p))).Some? ==> Ordinary(Statement(Base(WithOrder(p))).value)
  {
    if NeedsOrder(p) {
      OrderedBase(p);
      OrderedAnswer(db, Base(p), FirstField(p));
    }
  }

  /** With any LIMIT and OFFSET the query brings that window of the ordered rows. */
  lemma WindowOfOrdered(p: ParsedSql, db: Database, r: ParsedSql)
    requires Extendable(p) && LimitsFit(r) && r == WithOrder(p).(limit := r.limit, offset := r.offset)
    ensures Execute(db, Printed(r)) == Windowed(Execute(db, Base(WithOrder(p))), r.limit, r.offset)
  {
    PrintedBase(r);
    OrderedOrdinary(p, db);
    assert Base(r) == Base(WithOrder(p));
    ExecuteBounded(db, Base(r), r);
  }

  function Paged(r: Result<seq<Data>, Refusal>, offset: nat, b: nat): Result<seq<Data>, Refusal> {
    match r
    case Err(e) => Err(e)
    case Ok(rows) => Ok(Page(rows, offset, b))
  }

  lemma WindowOfRows<T>(rows: seq<T>, b: nat, offset: nat)
    ensures Window(rows, Some(b), if offset > 0 then Some(offset) else None) == Page(rows, offset, b)
  {
  }

  lemma WindowIsPage(r: Result<seq<Data>, Refusal>, b: nat, offset: nat)
    ensures Windowed(r, Some(b), if offset > 0 then Some(offset) else None) == Paged(r, offset, b)
  {
    if r.Ok? {
      WindowOfRows(r.value, b, offset);
    }
  }

  /** A page text brings that page of the ordered rows, and is refused when the ordered query is,
      whatever the database. */
  lemma PageRows(ws: seq<Word>, db: Database, b: int, offset: int, q: ParsedSql)
    requires Pageable(ws, b) && 0 <= offset <= MAX_INT && q == WithOrder(Parse(ws).value)
    ensures Execute(db, PageText(q, b, offset)) == Paged(Ordered(ws, db), offset, b)
  {
    var p := Parse(ws).value;
    ParseIsCanonical(ws);
    PageTextPrinted(p, q, b, offset);
    WindowOfOrdered(p, db, PageQuery(q, b, offset));
    WindowIsPage(Ordered(ws, db), b, offset);
  }

  /** A query without an order is refused in the order chosen for it when its first field is no sort
      key; else the database sees it with that ORDER BY. */
  lemma OrderChosen(ws: seq<Word>, db: Database)
    requires Parse(ws).Ok? && Extendable(Parse(ws).value)
    ensures var p := Parse(ws).value;
      && (!NeedsOrder(p) ==> Ordered(ws, db) == Execute(db, Base(p)))
      && (NeedsOrder(p) && !Sortable(p) ==> Ordered(ws, db).Err?)
      && (NeedsOrder(p) && Sortable(p) ==>
            Ordered(ws, db) == Told(db(Statement(Base(p)).value + [OrderSection(FirstField(p))])))
  {
    var p := Parse(ws).value;
    if NeedsOrder(p) {
      OrderedBase(p);
      OrderedAnswer(db, Base(p), FirstField(p));
    }
  }

  /** The database can sort the query by its first field, where that is a sort key at all. */
  ghost predicate CanSort(db: Database, p: ParsedSql)
    requires Statement(Base(p)).Some?
  {
    NeedsOrder(p) && Sortable(p) ==> db(Statement(Base(p)).value + [OrderSection(FirstField(p))]).Ok?
  }

  /** The page texts are the pages of one row sequence. */
  ghost predicate PagesOf(rows: seq<Data>, db: Database, q: ParsedSql, b: nat) {
    forall offset :: 0 <= offset <= MAX_INT ==> Execute(db, PageText(q, b, offset)) == Ok(Page(rows, offset, b))
  }

  lemma AllPages(ws: seq<Word>, db: Database, b: int, q: ParsedSql)
    requires Pageable(ws, b) && Ordered(ws, db).Ok? && q == WithOrder(Parse(ws).value)
    ensures PagesOf(Ordered(ws, db).value, db, q, b)
  {
    forall offset | 0 <= offset <= MAX_INT
      ensures Execute(db, PageText(q, b, offset)) == Ok(Page(Ordered(ws, db).value, offset, b))
    {
      PageRows(ws, db, b, offset, q);
    }
  }

  /** A query the database answers is brought page by page exactly when it has an order of its own or
      its first field is a sort key. */
  lemma PagesExactly(ws: seq<Word>, db: Database, b: int)
    requires Pageable(ws, b) && Execute(db, Base(Parse(ws).value)).Ok? && CanSort(db, Parse(ws).value)
    ensures (exists rows :: PagesOf(rows, db, WithOrder(Parse(ws).value), b)) <==> Sortable(Parse(ws).value)
  {
    var q := WithOrder(Parse(ws).value);
    OrderChosen(ws, db);
    if Sortable(Parse(ws).value) {
      AllPages(ws, db, b, q);
    } else {
      PageRows(ws, db, b, 0, q);
      forall rows ensures !PagesOf(rows, db, q, b) {
        assert Execute(db, PageText(q, b, 0)) != Ok(Page(rows, 0, b));
      }
    }
  }

  lemma LimitCuts<T>(rows: seq<T>, limit: Option<int>)
    requires limit.Some? ==> 0 <= limit.value
    ensures Window(rows, limit, None) == rows <==> (limit.Some? ==> |rows| <= limit.value)
  {
  }

  /** The ordered query itself returns the ordered rows up to its own LIMIT. */
  lemma QueryRows(ws: seq<Word>, db: Database, q: ParsedSql)
    requires Parse(ws).Ok? && Extendable(Parse(ws).value) && Parse(ws).value.offset.None?
    requires Ordered(ws, db).Ok? && q == WithOrder(Parse(ws).value)
    ensures LimitsFit(q) && Execute(db, Printed(q)) == Ok(Window(Ordered(ws, db).value, q.limit, None))
  {
    ParseIsCanonical(ws);
    CanonicalLimits(Parse(ws).value);
    WindowOfOrdered(Parse(ws).value, db, q);
  }

  /** Together the pages are the rows of the ordered query exactly when its own LIMIT cuts nothing
      off. */
  lemma PagesAreTheQuery(ws: seq<Word>, db: Database, b: int)
    requires Pageable(ws, b) && Ordered(ws, db).Ok?
    ensures var q, rows := WithOrder(Parse(ws).value), Ordered(ws, db).value;
      && PagesOf(rows, db, q, b)
      && Execute(db, Printed(q)) == Ok(Window(rows, q.limit, None))
      && (Ok(Flatten(Pages(rows, b))) == Execute(db, Printed(q)) <==> (q.limit.Some? ==> |rows| <= q.limit.value))
  {
    var q, rows := WithOrder(Parse(ws).value), Ordered(ws, db).value;
    AllPages(ws, db, b, q);
    QueryRows(ws, db, q);
    PagesShape(rows, b);
    LimitCuts(rows, q.limit);
  }

  /** The queries that are read page by page to their end. */
  ghost predicate Readable(ws: seq<Word>, db: Database, b: int) { Pageable(ws, b) && Ordered(ws, db).Ok? }

  /** The queries of which no page is answered. */
  ghost predicate Refused(ws: seq<Word>, db: Database, b: int) { Pageable(ws, b) && Ordered(ws, db).Err? }

  // ----- SELECT * -----

  /** SELECT * FROM t */
  function StarQuery(t: string): seq<Word> { [Kw(Select)] + ([Lex("*")] + [Kw(From), Lex(t)]) }

  function StarValue(t: string): ParsedSql { NO_CLAUSES.(select := [Lex("*")], from_ := [Lex(t)]) }

  lemma StarPrinted(t: string)
    ensures Printed(StarValue(t)) == StarQuery(t) && Base(StarValue(t)) == StarQuery(t)
  {
    var p := StarValue(t);
    PrintWhereAndLimit(p);
    assert p.(limit := None, offset := None) == p;
    assert Printed(p) == [Kw(Select)] + [Lex("*")] + [Kw(From)] + [Lex(t)] + [] + [];
    assert [Kw(From)] + [Lex(t)] == [Kw(From), Lex(t)];
  }

  lemma StarDangles(t: string)
    ensures !Dangling(StarValue(t))
  {
    var p := StarValue(t);
    assert forall l :: WHERE <= l < 4 ==> Clause(p, l) == [];
    assert !TailDangles(4, p) && !TailDangles(3, p) && !TailDangles(2, p) && !TailDangles(1, p) && !TailDangles(0, p);
  }

  lemma StarParses(t: string)
    ensures Parse(StarQuery(t)) == Ok(StarValue(t))
  {
    OnlyFromAndWhere(StarValue(t), Lex("*"), Lex(t));
    CanonicalRoundTrips(StarValue(t));
    StarPrinted(t);
  }

  lemma StarField()
    ensures Fields([Lex("*")]) == [[Lex("*")]]
  {
    var f := [Lex("*")];
    assert Writable(f) && IsName(f);
    FieldsReadBack([f]);
    assert Listed([f]) == f;
  }

  lemma StarTokens(ws: seq<Word>)
    ensures Tokens(None, [Lex("*")] + ws) == [STAR] + Tokens(None, ws)
    ensures QuoteAfter(None, [Lex("*")] + ws) == QuoteAfter(None, ws)
  {
    var w := Lex("*");
    assert "*"[1..] == "";
    assert WordTokens(None, "", "*") == [STAR];
    TokensFront(None, w, ws, [STAR], None);
  }

  /** A star in front changes nothing but the lead. */
  lemma StarFlat(ws: seq<Word>)
    requires Flat(ws)
    ensures Flat([Lex("*")] + ws)
  {
    StarTokens(ws);
    FlatText(ws);
    var ts := Tokens(None, ws);
    assert ([STAR] + ts)[1..] == ts;
    assert Next(START, STAR) == START;
  }

  lemma StarHead(f: Word, t: Word)
    requires Neutral(f.text) && Neutral(t.text)
    ensures Flat([Lex("*")] + [f, t])
  {
    NeutralText([f, t]);
    StarFlat([f, t]);
  }

  lemma StarStatement(t: string)
    requires Ident(t)
    ensures var ss := [Section(ClauseOf(Select), Tokens(None, [Lex("*")] + [Kw(From), Lex(t)]))];
      Statement(StarQuery(t)) == Some(ss)
  {
    KeywordPlain(From);
    StarHead(Kw(From), Lex(t));
    SpellingFixed(Select);
    OneStatement(Kw(Select), [Lex("*")] + [Kw(From), Lex(t)]);
  }

  lemma StarKey()
    ensures ReadText([Lex("*")]).sections == [] && !SortableBy([Lex("*")])
  {
    EmptyIsFlat();
    StarFlat([]);
    StarTokens([]);
    assert [Lex("*")] + [] == [Lex("*")];
  }

  lemma OneSelectOrdinary(ss: seq<Section>)
    requires |ss| == 1 && ss[0].heading == ClauseOf(Select)
    ensures Ordinary(ss) && !EndsInOrder(ss)
  {
  }

  lemma StarExtendable(t: string)
    requires Ident(t)
    ensures Extendable(StarValue(t)) && NeedsOrder(StarValue(t)) && FirstField(StarValue(t)) == [Lex("*")]
  {
    StarPrinted(t);
    StarField();
    StarStatement(t);
    OneSelectOrdinary(Statement(StarQuery(t)).value);
    StarKey();
  }

  /** The reader orders SELECT * FROM t by the star: no database answers any of its page texts, and
      nothing is read. */
  lemma StarIsRefused(t: string, db: Database, b: int)
    requires Ident(t) && 1 <= b <= MAX_INT
    ensures Pageable(StarQuery(t), b) && !Sortable(StarValue(t)) && Refused(StarQuery(t), db, b)
    ensures Base(WithOrder(StarValue(t))) == StarQuery(t) + OrderWords([Lex("*")])
  {
    StarParses(t);
    StarPrinted(t);
    StarDangles(t);
    StarExtendable(t);
    StarKey();
    OrderChosen(StarQuery(t), db);
    OrderedBase(StarValue(t));
  }

  /** A single name can be sorted by. */
  lemma NameIsSortKey(a: string)
    requires Ident(a) && Strings.Upper(a) != "DISTINCT" && Strings.Upper(a) != "ALL"
    ensures SortableBy([Lex(a)])
  {
    NeutralText([Lex(a)]);
    assert NamesOf([Lex(a)]) == [Name(a)];
  }

  // ----- Reading -----

  /** The rows the pages are cut from, if there are any. */
  function Table(ws: seq<Word>, db: Database): seq<Data> {
    match Ordered(ws, db)
    case Err(_) => []
    case Ok(rows) => rows
  }

  /** The records of one page text, or the error of a text that is not answered. */
  function PageRecords(db: Database, text: seq<Word>, pk: Option<string>): Result<seq<Record>, Refusal> {
    match Execute(db, text)
    case Err(e) => Err(e)
    case Ok(rows) => Ok(ToRecords(pk, rows))
  }

  /** One query and the records built from its rows. */
  method QueryPage(parsed: ParsedSql, b: int, offset: int, db: Database, pk: Option<string>)
    returns (r: Result<seq<Record>, Refusal>)
    ensures r == PageRecords(db, PageText(parsed, b, offset), pk)
  {
    var text := Rebuild(parsed);
    text := SetLimit(text, b);
    if offset > 0 {
      text := text + [Kw(Offset), FormatInt(offset)];
    }
    var result := Execute(db, text);
    if result.Err? {
      return Err(result.error);
    }
    var records := BuildRecords(result.value, pk);
    return Ok(records);
  }

  /** The page texts bring the pages of the table, or, if `bad`, not even the first one. */
  ghost predicate Brings(good: bool, bad: bool, q: ParsedSql, b: nat, db: Database, pk: Option<string>,
                         table: seq<Record>)
  {
    && |table| <= MAX_INT
    && (good ==> forall offset :: 0 <= offset <= MAX_INT ==>
          PageRecords(db, PageText(q, b, offset), pk) == Ok(Page(table, offset, b)))
    && (bad ==> PageRecords(db, PageText(q, b, 0), pk).Err?)
  }

  lemma PagesArrive(ws: seq<Word>, db: Database, pk: Option<string>, b: nat)
    requires Parse(ws).Ok? && |Table(ws, db)| <= MAX_INT
    ensures Brings(Readable(ws, db, b), Refused(ws, db, b), WithOrder(Parse(ws).value), b, db, pk,
                   ToRecords(pk, Table(ws, db)))
  {
    var q := WithOrder(Parse(ws).value);
    if Readable(ws, db, b) {
      forall offset | 0 <= offset <= MAX_INT
        ensures PageRecords(db, PageText(q, b, offset), pk) == Ok(Page(ToRecords(pk, Table(ws, db)), offset, b))
      {
        PageRows(ws, db, b, offset, q);
        ToRecordsPage(pk, Table(ws, db), offset, b);
      }
    }
    if Refused(ws, db, b) {
      PageRows(ws, db, b, 0, q);
    }
  }

  method ParseQuery(sql: seq<Word>) returns (r: Result<ParsedSql, string>)
    ensures r.Ok? <==> Parse(sql).Ok?
    ensures r.Ok? ==> r.value == WithOrder(Parse(sql).value)
  {
    if sql == [] {
      return Err("SQLReader requires SQL in ReaderConfig");
    }
    var p := Parse(sql);
    if p.Err? {
      return Err("failed to parse SQL");
    }
    var parsed := p.value;
    if parsed.orderBy == [] {
      var fields := ParseFields(parsed.select);
      if |fields| > 0 {
        parsed := parsed.(orderBy := fields[0] + [ASC]);
      }
    }
    return Ok(parsed);
  }

  /** Nothing disturbs the reader before it is done. */
  ghost predicate Undisturbed(at: nat -> Interrupt, deadline: nat, last: nat) {
    (forall i :: at(i).Quiet?) && deadline > last
  }

  /** One turn: a query, or the error it meets. */
  method NextPage(ghost good: bool, ghost bad: bool, q: ParsedSql, b: nat, offset: int, db: Database,
                  pk: Option<string>, ghost k: nat, ghost sent: seq<seq<Record>>, ghost table: seq<Record>,
                  ghost last: nat)
    returns (r: Result<seq<Record>, Refusal>)
    requires b >= 1 && Brings(good, bad, q, b, db, pk, table) && last == FullPages(|table|, b)
    requires good ==> Sending(table, b, k, offset, sent)
    requires offset >= 0 && (bad ==> offset == 0)
    ensures bad ==> r.Err?
    ensures good ==> r.Ok?
    ensures good && r.value == [] ==> sent == Pages(table, b) && k == last
    ensures good && 0 < |r.value| < b ==> sent + [r.value] == Pages(table, b) && k == last
    ensures good && |r.value| >= b ==> Sending(table, b, k + 1, offset + b, sent + [r.value]) && k < last
  {
    r := QueryPage(q, b, offset, db, pk);
    if good {
      PageSent(table, b, k, offset, sent, Page(table, offset, b), last);
    }
  }

  /** What the loop knows at its head after so many queries. */
  ghost predicate Looping(good: bool, bad: bool, calm: bool, table: seq<Record>, b: nat, sent: seq<seq<Record>>,
                          queries: nat, offset: int, last: nat)
  {
    && offset >= 0 && (good ==> Sending(table, b, queries, offset, sent)) && (calm ==> queries <= last)
    && (bad ==> offset == 0 && sent == [] && queries == 0)
  }

  /** What it leaves when it ends. */
  ghost predicate Ended(good: bool, bad: bool, calm: bool, table: seq<Record>, b: nat, sent: seq<seq<Record>>,
                        report: Option<string>, queries: nat, last: nat)
    requires b >= 1
  {
    && (good ==> sent <= Pages(table, b) && (report.None? ==> sent == Pages(table, b)))
    && (calm ==> report.None? && queries == last + 1) && (bad ==> sent == [] && report.Some? && queries <= 1)
  }

  /** The body of the loop behind its first cancellation test: it ends the loop, or goes on. */
  method TurnPage(parsed: ParsedSql, b: nat, db: Database, pk: Option<string>, turn: Interrupt,
                  batches: seq<seq<Record>>, k: nat, from_: int, ghost good: bool, ghost bad: bool, ghost calm: bool,
                  ghost table: seq<Record>, ghost last: nat)
    returns (done: bool, sent: seq<seq<Record>>, report: Option<string>, queries: nat, offset: int)
    requires b >= 1 && Brings(good, bad, parsed, b, db, pk, table) && last == FullPages(|table|, b)
    requires Looping(good, bad, calm, table, b, batches, k, from_, last) && (calm ==> good && turn.Quiet?)
    ensures queries == k + 1
    ensures done ==> Ended(good, bad, calm, table, b, sent, report, queries, last)
    ensures !done ==> Looping(good, bad, calm, table, b, sent, queries, offset, last)
  {
    if good {
      SentIsPrefix(table, b, k, from_, batches);
    }
    sent, report, queries, offset := batches, None, k + 1, from_;
    if turn.QueryError? {
      return true, sent, Some(turn.msg), queries, offset;
    }
    var page := NextPage(good, bad, parsed, b, offset, db, pk, k, sent, table, last);
    if page.Err? {
      return true, sent, Some("sql read failed"), queries, offset;
    }
    if |page.value| == 0 {
      return true, sent, None, queries, offset;
    }
    if turn.CancelledAtSend? {
      return true, sent, Some("context canceled"), queries, offset;
    }
    sent := sent + [page.value];
    if |page.value| < b {
      return true, sent, None, queries, offset;
    }
    offset := offset + b;
    done := false;
  }

  /** The paging loop. */
  method ReadQueryPages(parsed: ParsedSql, b: nat, db: Database, pk: Option<string>, at: nat -> Interrupt,
                        deadline: nat, ghost good: bool, ghost bad: bool, ghost calm: bool, ghost table: seq<Record>,
                        ghost last: nat)
    returns (sent: seq<seq<Record>>, report: Option<string>, queries: nat)
    requires b >= 1 && Brings(good, bad, parsed, b, db, pk, table) && last == FullPages(|table|, b)
    requires calm ==> good && Undisturbed(at, deadline, last)
    ensures Ended(good, bad, calm, table, b, sent, report, queries, last)
  {
    sent, queries := [], 0;
    var offset := 0;
    while true
      invariant queries <= deadline && Looping(good, bad, calm, table, b, sent, queries, offset, last)
      decreases deadline - queries
    {
      if good {
        SentIsPrefix(table, b, queries, offset, sent);
      }
      if queries >= deadline || at(queries).CancelledAtHead? {
        return sent, Some("context canceled"), queries;
      }
      var done;
      done, sent, report, queries, offset :=
        TurnPage(parsed, b, db, pk, at(queries), sent, queries, offset, good, bad, calm, table, last);
      if done {
        return;
      }
    }
  }

  /** The goroutine of `SQLReader.Read` on its own, cancelled at the latest in the turn `deadline`:
      `sent` are the batches put on the record channel and `report` is what it puts on the other. */
  method Read(sql: seq<Word>, db: Database, pk: Option<string>, batchSize: int, at: nat -> Interrupt, deadline: nat)
    returns (sent: seq<seq<Record>>, report: Option<string>, queries: nat)
    requires |Table(sql, db)| <= MAX_INT
    ensures Parse(sql).Err? ==> sent == [] && report.Some? && queries == 0
    ensures Refused(sql, db, EffectiveBatchSize(batchSize)) ==> sent == [] && report.Some? && queries <= 1
    ensures Readable(sql, db, EffectiveBatchSize(batchSize)) ==>
              SentOf(pk, Table(sql, db), batchSize, sent) && (report.None? ==> |Flatten(sent)| == |Table(sql, db)|)
    ensures Readable(sql, db, EffectiveBatchSize(batchSize)) ==>
              sent <= Pages(ToRecords(pk, Table(sql, db)), EffectiveBatchSize(batchSize))
    ensures Readable(sql, db, EffectiveBatchSize(batchSize)) && report.None? ==>
              sent == Pages(ToRecords(pk, Table(sql, db)), EffectiveBatchSize(batchSize))
    ensures var last := FullPages(|Table(sql, db)|, EffectiveBatchSize(batchSize));
      Readable(sql, db, EffectiveBatchSize(batchSize)) && Undisturbed(at, deadline, last) ==>
        report.None? && queries == last + 1
  {
    var r := ParseQuery(sql);
    if r.Err? {
      return [], Some(r.error), 0;
    }
    var b := batchSize;
    if b <= 0 {
      b := 1000;
    }
    ghost var table := ToRecords(pk, Table(sql, db));
    PagesArrive(sql, db, pk, b);
    sent, report, queries :=
      ReadQueryPages(r.value, b, db, pk, at, deadline, Readable(sql, db, b), Refused(sql, db, b),
                     Readable(sql, db, b) && Undisturbed(at, deadline, FullPages(|table|, b)), table,
                     FullPages(|table|, b));
    if sent <= Pages(table, b) {
      SentMatch(pk, Table(sql, db), batchSize, sent);
    }
  }
}
