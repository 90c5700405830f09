/** What a database answers to a text.  It reads the text by itself, section by section; LIMIT and
    OFFSET cut the rows, and an order that is no list of expressions is refused. */
module SqlDatabase {
  import opened Wrappers
  import Strings
  import opened Records
  import opened SqlText
  import opened SqlRoundTrip
  import opened SqlRewrite
  import opened SqlTokens
  import opened SqlCondition
  import opened SqlStatements
  import opened SqlClauses
  import opened SqlNames

  // ----- Statements and rows -----

  datatype Refusal = Malformed | NoSortKey | Failed(msg: string)

  /** The rows of a statement without LIMIT and OFFSET, in the order it asks for, or an error. */
  type Database = seq<Section> -> Result<seq<Data>, string>

  predicate EndsQuery(h: Heading) { h.Trailer? || h in {ClauseOf(Order), ClauseOf(Limit), ClauseOf(Offset)} }

  predicate EndsInOrder(ss: seq<Section>) { ss != [] && ss[|ss| - 1].heading == ClauseOf(Order) }

  /** Nothing stands behind the query but its ORDER BY: LIMIT and OFFSET can follow. */
  predicate Ordinary(ss: seq<Section>) {
    forall i :: 0 <= i < |ss| && EndsQuery(ss[i].heading) ==> i == |ss| - 1 && EndsInOrder(ss)
  }

  predicate IsBound(s: Section, key: Key) {
    s.heading == ClauseOf(key) && |s.body| == 1 && s.body[0].Name? && AllDigits(s.body[0].text)
  }

  datatype Bounded = Bounded(core: seq<Section>, limit: Option<int>, offset: Option<int>)

  /** The statement without the LIMIT and the OFFSET behind it. */
  function Unbounded(ss: seq<Section>): Bounded {
    var n := |ss|;
    if n >= 2 && IsBound(ss[n - 2], Limit) && IsBound(ss[n - 1], Offset) then
      Bounded(ss[..n - 2], Some(ParseInt(ss[n - 2].body[0].text)), Some(ParseInt(ss[n - 1].body[0].text)))
    else if n >= 1 && IsBound(ss[n - 1], Limit) then Bounded(ss[..n - 1], Some(ParseInt(ss[n - 1].body[0].text)), None)
    else if n >= 1 && IsBound(ss[n - 1], Offset) then Bounded(ss[..n - 1], None, Some(ParseInt(ss[n - 1].body[0].text)))
    else Bounded(ss, None, None)
  }

  function Window<T>(rows: seq<T>, limit: Option<int>, offset: Option<int>): seq<T> {
    var from_ := if offset.Some? && offset.value > 0 then offset.value else 0;
    var rest := if from_ <= |rows| then rows[from_..] else [];
    if limit.Some? && 0 <= limit.value < |rest| then rest[..limit.value] else rest
  }

  function Windowed(r: Result<seq<Data>, Refusal>, limit: Option<int>, offset: Option<int>)
    : Result<seq<Data>, Refusal>
  {
    match r
    case Err(e) => Err(e)
    case Ok(rows) => Ok(Window(rows, limit, offset))
  }

  function Told(r: Result<seq<Data>, string>): Result<seq<Data>, Refusal> {
    match r
    case Err(m) => Err(Failed(m))
    case Ok(rows) => Ok(rows)
  }

  // ----- Sort keys -----

  /** A name behind a finished expression: a column with an alias but without AS. */
  predicate ImplicitAlias(ts: seq<Token>) {
    var n := |ts|;
    && n >= 2 && ts[n - 1].Name? && !Spells(ts[n - 1], "ISNULL") && !Spells(ts[n - 1], "NOTNULL")
    && !Spells(ts[n - 1], "END") && !(ts[n - 1].text != "" && ts[n - 1].text[0] == '.')
    && (ts[n - 2] == Symbol(CLOSE)
        || (n == 2 && ts[0].Name? && !Spells(ts[0], "NOT") && !Spells(ts[0], "BINARY") && !Spells(ts[0], "PRIOR")
            && !(ts[0].text != "" && ts[0].text[|ts[0].text| - 1] == '.')))
    && forall i :: 0 <= i < n ==> !Spells(ts[i], "INTERVAL")
  }

  const STAR := Symbol('*')

  /** What can stand in an ORDER BY: closed, no star for all columns, no DISTINCT or ALL, no alias. */
  predicate SortKey(ts: seq<Token>) {
    && ts != [] && After(START, ts) == START
    && ts[0] != STAR && ts[|ts| - 1] != STAR && !Spells(ts[0], "DISTINCT") && !Spells(ts[0], "ALL")
    && !ImplicitAlias(ts)
  }

  const ASC := Lex("ASC")

  lemma CallWithAlias(ts: seq<Token>, x: string)
    requires Neutral(x) && x[0] != '.' && !Spells(Name(x), "INTERVAL")
    requires !Spells(Name(x), "ISNULL") && !Spells(Name(x), "NOTNULL")
    requires forall i :: 0 <= i < |ts| ==> !Spells(ts[i], "INTERVAL")
    ensures ImplicitAlias(ts + [Symbol(CLOSE), Name(x)])
  {
    var call := ts + [Symbol(CLOSE), Name(x)];
    assert call[|call| - 2] == Symbol(CLOSE) && call[|call| - 1] == Name(x);
    forall i | 0 <= i < |call| ensures !Spells(call[i], "INTERVAL") {
      assert i < |ts| ==> call[i] == ts[i];
    }
  }

  lemma TwoNames(a: string, x: string)
    requires Neutral(a) && Neutral(x) && a[|a| - 1] != '.' && x[0] != '.'
    requires !Spells(Name(a), "NOT") && !Spells(Name(a), "BINARY") && !Spells(Name(a), "PRIOR")
    requires !Spells(Name(a), "INTERVAL") && !Spells(Name(x), "INTERVAL")
    requires !Spells(Name(x), "ISNULL") && !Spells(Name(x), "NOTNULL")
    ensures ImplicitAlias([Name(a), Name(x)])
  {
  }

  /** What can never be sorted by: a star, DISTINCT or ALL in front, and a column with a bare alias. */
  lemma NoSortKeys(ts: seq<Token>, d: Token, a: string, x: string)
    requires Spells(d, "DISTINCT") || Spells(d, "ALL")
    requires Neutral(a) && Neutral(x) && a[|a| - 1] != '.' && x[0] != '.'
    requires !Spells(Name(a), "NOT") && !Spells(Name(a), "BINARY") && !Spells(Name(a), "PRIOR")
    requires !Spells(Name(a), "INTERVAL") && !Spells(Name(x), "INTERVAL")
    requires !Spells(Name(x), "ISNULL") && !Spells(Name(x), "NOTNULL")
    ensures !SortKey([STAR]) && !SortKey(ts + [STAR]) && !SortKey([d] + ts) && !SortKey([Name(a), Name(x)])
    ensures (forall i :: 0 <= i < |ts| ==> !Spells(ts[i], "INTERVAL")) ==> !SortKey(ts + [Symbol(CLOSE), Name(x)])
  {
    if forall i :: 0 <= i < |ts| ==> !Spells(ts[i], "INTERVAL") {
      CallWithAlias(ts, x);
    }
    TwoNames(a, x);
    assert (ts + [STAR])[|ts|] == STAR && ([d] + ts)[0] == d;
  }

  /** The last section is an ORDER BY of something that cannot be sorted by, ascending. */
  predicate Unsortable(ss: seq<Section>) {
    && EndsInOrder(ss)
    && var b := ss[|ss| - 1].body;
       |b| >= 2 && Spells(b[0], "BY") && Spells(b[|b| - 1], "ASC") && !SortKey(b[1..|b| - 1])
  }

  // ----- Answers -----

  /** A statement the model knows nothing more about is up to the database. */
  function Answer(db: Database, ss: seq<Section>): Result<seq<Data>, Refusal> {
    var q := Unbounded(ss);
    if !Ordinary(q.core) then Told(db(ss))
    else if Unsortable(q.core) then Err(NoSortKey)
    else Windowed(Told(db(q.core)), q.limit, q.offset)
  }

  /** The rows of a query text. */
  function Execute(db: Database, ws: seq<Word>): Result<seq<Data>, Refusal> {
    match Statement(ws)
    case None => Err(Malformed)
    case Some(ss) => Answer(db, ss)
  }

  // ----- LIMIT and OFFSET behind a text -----

  function BoundSection(key: Key, n: Option<int>): seq<Section> {
    if n.Some? then [Section(ClauseOf(key), [Name(FormatInt(n.value).text)])] else []
  }

  lemma FormattedNumber(n: int)
    requires 0 <= n <= MAX_INT
    ensures var w := FormatInt(n);
      w == Lex(w.text) && w.key == Number && ParseInt(w.text) == n && AllDigits(w.text)
  {
    NumberLexed(n);
    ParseIntUndoesFormat(n);
  }

  lemma BoundSectioned(key: Key, n: Option<int>)
    requires key in {Limit, Offset} && (n.Some? ==> 0 <= n.value <= MAX_INT)
    ensures Sectioned(if n.Some? then [Kw(key), FormatInt(n.value)] else [], BoundSection(key, n))
  {
    if n.Some? {
      SpellingFixed(key);
      FormattedNumber(n.value);
      NumberSection(Kw(key), FormatInt(n.value));
      assert [Kw(key)] + [FormatInt(n.value)] == [Kw(key), FormatInt(n.value)];
    } else {
      EmptySectioned();
    }
  }

  lemma LimitsSectioned(p: ParsedSql)
    requires LimitsFit(p)
    ensures Sectioned(PrintLimits(p), BoundSection(Limit, p.limit) + BoundSection(Offset, p.offset))
  {
    BoundSectioned(Limit, p.limit);
    BoundSectioned(Offset, p.offset);
    SectionedConcat(if p.limit.Some? then [Kw(Limit), FormatInt(p.limit.value)] else [], BoundSection(Limit, p.limit),
                    if p.offset.Some? then [Kw(Offset), FormatInt(p.offset.value)] else [],
                    BoundSection(Offset, p.offset));
  }

  lemma BoundOf(key: Key, n: int)
    requires 0 <= n <= MAX_INT
    ensures var s := BoundSection(key, Some(n))[0];
      IsBound(s, key) && ParseInt(s.body[0].text) == n && s.heading == ClauseOf(key)
  {
    FormattedNumber(n);
  }

  lemma UnboundedOrdinary(ss: seq<Section>)
    requires Ordinary(ss)
    ensures Unbounded(ss) == Bounded(ss, None, None)
  {
  }

  lemma UnboundedBounds(ss: seq<Section>, limit: Option<int>, offset: Option<int>)
    requires Ordinary(ss)
    requires (limit.Some? ==> 0 <= limit.value <= MAX_INT) && (offset.Some? ==> 0 <= offset.value <= MAX_INT)
    ensures Unbounded(ss + (BoundSection(Limit, limit) + BoundSection(Offset, offset))) == Bounded(ss, limit, offset)
  {
    var l, o := BoundSection(Limit, limit), BoundSection(Offset, offset);
    var all, n := ss + (l + o), |ss|;
    if limit.Some? {
      BoundOf(Limit, limit.value);
      assert all[n] == l[0];
    }
    if offset.Some? {
      BoundOf(Offset, offset.value);
      assert all[|all| - 1] == o[0];
    }
    assert all[..n] == ss;
    if n > 0 {
      assert all[n - 1] == ss[n - 1];
      assert !IsBound(ss[n - 1], Limit) && !IsBound(ss[n - 1], Offset);
    }
  }

  lemma AnswerWindowed(db: Database, all: seq<Section>, ss: seq<Section>, limit: Option<int>, offset: Option<int>)
    requires Unbounded(all) == Bounded(ss, limit, offset) && Unbounded(ss) == Bounded(ss, None, None) && Ordinary(ss)
    ensures Answer(db, all) == Windowed(Answer(db, ss), limit, offset)
  {
  }

  /** LIMIT and OFFSET behind a query cut its rows, and nothing else. */
  lemma BoundsCut(db: Database, ss: seq<Section>, limit: Option<int>, offset: Option<int>)
    requires Ordinary(ss)
    requires (limit.Some? ==> 0 <= limit.value <= MAX_INT) && (offset.Some? ==> 0 <= offset.value <= MAX_INT)
    ensures Answer(db, ss + (BoundSection(Limit, limit) + BoundSection(Offset, offset)))
         == Windowed(Answer(db, ss), limit, offset)
  {
    UnboundedOrdinary(ss);
    UnboundedBounds(ss, limit, offset);
    AnswerWindowed(db, ss + (BoundSection(Limit, limit) + BoundSection(Offset, offset)), ss, limit, offset);
  }

  // ----- What is open stays open -----

  lemma {:induction false} NamesKeepOpen(s: Scan, ts: seq<Token>)
    requires !AtTop(s) && forall i :: 0 <= i < |ts| ==> ts[i].Name? && PlainName(ts[i].text)
    ensures !AtTop(Left(s, ts))
    decreases |ts|
  {
    if ts != [] {
      assert !AtTop(Step(s, ts[0]));
      NamesKeepOpen(Step(s, ts[0]), ts[1..]);
    }
  }

  lemma {:induction false} NamesKeepQuote(q: char, ws: seq<Word>)
    requires IsQuote(q) && PlainNames(ws)
    ensures QuoteAfter(Some(q), ws) == Some(q)
  {
    if ws != [] {
      QuotedWord(q, ws[0].text);
      NamesKeepQuote(q, ws[1..]);
    }
  }

  /** Names behind a text close nothing in it. */
  lemma OpenStaysOpen(a: seq<Word>, b: seq<Word>)
    requires !Whole(a) && PlainNames(b)
    ensures !Whole(a + b)
  {
    var q := QuoteAfter(None, a);
    TokensConcat(None, a, b);
    if q.Some? {
      OpenQuotes(None, a);
      NamesKeepQuote(q.value, b);
    } else {
      PlainTokens(b);
      ReadConcat(START, Tokens(None, a), NamesOf(b));
      NamesKeepOpen(Left(START, Tokens(None, a)), NamesOf(b));
    }
  }

  lemma NumberPlain(n: int)
    requires 0 <= n <= MAX_INT
    ensures PlainName(FormatInt(n).text)
  {
    FormattedNumber(n);
    KeywordNeutral(FormatInt(n));
  }

  lemma BoundPlain(key: Key, n: int)
    requires key in {Limit, Offset} && 0 <= n <= MAX_INT
    ensures PlainNames([Kw(key), FormatInt(n)])
  {
    KeywordPlain(key);
    NumberPlain(n);
  }

  lemma LimitsPlain(p: ParsedSql)
    requires LimitsFit(p)
    ensures PlainNames(PrintLimits(p))
  {
    if p.limit.Some? {
      BoundPlain(Limit, p.limit.value);
    }
    if p.offset.Some? {
      BoundPlain(Offset, p.offset.value);
    }
  }

  lemma BoundsBehind(base: seq<Word>, p: ParsedSql)
    requires LimitsFit(p) && Whole(base)
    ensures Whole(base + PrintLimits(p)) && ReadText(base + PrintLimits(p)).lead == ReadText(base).lead
    ensures ReadText(base + PrintLimits(p)).sections
         == ReadText(base).sections + (BoundSection(Limit, p.limit) + BoundSection(Offset, p.offset))
  {
    LimitsSectioned(p);
    if PrintLimits(p) == [] {
      assert base + PrintLimits(p) == base;
      assert BoundSection(Limit, p.limit) + BoundSection(Offset, p.offset) == [];
    } else {
      SectionsAppend(base, PrintLimits(p));
    }
  }

  /** With LIMIT and OFFSET behind it a text brings that window of its rows, and is refused as it was
      without them. */
  lemma ExecuteBounded(db: Database, base: seq<Word>, p: ParsedSql)
    requires LimitsFit(p) && (Statement(base).Some? ==> Ordinary(Statement(base).value))
    ensures Execute(db, base + PrintLimits(p)) == Windowed(Execute(db, base), p.limit, p.offset)
  {
    if !Whole(base) {
      LimitsPlain(p);
      OpenStaysOpen(base, PrintLimits(p));
    } else {
      BoundsBehind(base, p);
      if Statement(base).Some? {
        BoundsCut(db, Statement(base).value, p.limit, p.offset);
      }
    }
  }

  // ----- ORDER BY behind a text -----

  /** ORDER BY and a key, ascending. */
  function OrderWords(key: seq<Word>): seq<Word> { KeywordWords(ORDER_BY) + key + [ASC] }

  function OrderSection(key: seq<Word>): Section {
    Section(ClauseOf(Order), [Name(Kw(By).text)] + Tokens(None, key) + [Name(ASC.text)])
  }

  lemma AscWord()
    ensures ASC.key == Plain && Neutral(ASC.text) && Spells(Name(ASC.text), "ASC")
  {
    assert Strings.Upper("ASC") == "ASC" && "ASC"[0] == 'A' && "ASC"[1] == 'S' && "AND"[1] == 'N';
    assert forall i :: 0 <= i < 3 ==> 'A' <= "ASC"[i] <= 'Z';
    assert "SELECT"[0] == 'S' && "FROM"[0] == 'F' && "WHERE"[0] == 'W' && "GROUP"[0] == 'G' && "BY"[0] == 'B';
    assert "HAVING"[0] == 'H' && "ORDER"[0] == 'O' && "LIMIT"[0] == 'L' && "OFFSET"[0] == 'O';
    assert "UNION"[0] == 'U' && "INTERSECT"[0] == 'I' && "EXCEPT"[0] == 'E' && "MINUS"[0] == 'M' && "WINDOW"[0] == 'W';
    assert "FETCH"[0] == 'F' && "FOR"[0] == 'F' && "INTO"[0] == 'I' && "LOCK"[0] == 'L' && "OPTION"[0] == 'O';
    assert "CASE"[0] == 'C' && "END"[0] == 'E' && "BETWEEN"[0] == 'B' && "OR"[0] == 'O';
    assert !IsDigit("ASC"[0]);
  }

  /** The tokens of an order, with what a neutral word in front of a key and one behind it do. */
  lemma KeyBetween(x: string, key: seq<Token>, y: string)
    requires Neutral(x) && Neutral(y) && Read(START, key).sections == []
    ensures var ts := [Name(x)] + key + [Name(y)];
      && Read(START, ts) == Reading(ts, [])
      && (AtTop(Left(START, ts)) <==> AtTop(After(START, key)))
  {
    FlatRead(START, key);
    NeutralRead(START, x, key);
    var s := Left(START, key);
    ReadConcat(START, [Name(x)] + key, [Name(y)]);
    assert Starts(s, Name(y)) == false;
    assert Read(s, [Name(y)]) == Reading([Name(y)], []);
    assert AtTop(Next(s, Name(y))) <==> AtTop(s);
  }

  /** The key is one an ORDER BY can hold. */
  predicate SortableBy(key: seq<Word>) { QuoteAfter(None, key) == None && SortKey(Tokens(None, key)) }

  predicate KeyCloses(key: seq<Word>) { QuoteAfter(None, key) == None && AtTop(After(START, Tokens(None, key))) }

  /** Two keywords in front of a key. */
  lemma TwoInFront(o: Word, b: Word, key: seq<Word>)
    requires o == Lex(o.text) && b == Lex(b.text) && o.key != Plain && b.key != Plain
    ensures Tokens(None, [o, b] + key) == [Name(o.text)] + ([Name(b.text)] + Tokens(None, key))
    ensures QuoteAfter(None, [o, b] + key) == QuoteAfter(None, key)
  {
    FrontToken(b, key);
    FrontToken(o, [b] + key);
    assert [o, b] + key == [o] + ([b] + key);
  }

  lemma NameBehind(front: seq<Word>, w: Word)
    requires w == Lex(w.text) && AllNameChars(w.text) && w.text != "" && QuoteAfter(None, front) == None
    ensures Tokens(None, front + [w]) == Tokens(None, front) + [Name(w.text)] && QuoteAfter(None, front + [w]) == None
  {
    TokensConcat(None, front, [w]);
    OneName(w.text);
  }

  lemma OrderKeywords()
    ensures Kw(Order) == Lex(Kw(Order).text) && Kw(By) == Lex(Kw(By).text)
    ensures KeywordWords(ORDER_BY) == [Kw(Order), Kw(By)]
  {
    SpellingFixed(Order);
    SpellingFixed(By);
  }

  lemma Behind(o: Token, b: Token, key: seq<Token>, a: Token)
    ensures [o] + ([b] + key) + [a] == [o] + ([b] + key + [a])
  {
  }

  lemma OrderTokens(key: seq<Word>)
    requires QuoteAfter(None, key) == None
    ensures QuoteAfter(None, OrderWords(key)) == None
    ensures Tokens(None, OrderWords(key))
         == [Name(Kw(Order).text)] + ([Name(Kw(By).text)] + Tokens(None, key) + [Name(ASC.text)])
  {
    OrderKeywords();
    AscWord();
    TwoInFront(Kw(Order), Kw(By), key);
    NameBehind(KeywordWords(ORDER_BY) + key, ASC);
    Behind(Name(Kw(Order).text), Name(Kw(By).text), Tokens(None, key), Name(ASC.text));
  }

  lemma OrderKeepsQuote(key: seq<Word>)
    requires QuoteAfter(None, key).Some?
    ensures !Whole(OrderWords(key))
  {
    OrderKeywords();
    TwoInFront(Kw(Order), Kw(By), key);
    AscWord();
    OpenStaysOpen(KeywordWords(ORDER_BY) + key, [ASC]);
  }

  lemma OrderHeaded(key: seq<Word>)
    ensures Headed(OrderWords(key))
  {
    SpellingFixed(Order);
    FrontToken(Kw(Order), [Kw(By)] + key + [ASC]);
    HeadingOfKeyword(Kw(Order));
    assert OrderWords(key) == [Kw(Order)] + ([Kw(By)] + key + [ASC]);
  }

  /** A heading and tokens without one are one section. */
  lemma HeadingRead(t: Token, ts: seq<Token>)
    requires HeadingOf(t).Some? && Read(START, ts) == Reading(ts, [])
    ensures Read(START, [t] + ts) == Reading([], [Section(HeadingOf(t).value, ts)])
    ensures Left(START, [t] + ts) == Left(START, ts)
  {
    assert ([t] + ts)[1..] == ts;
  }

  /** The words of an order are one section, if its key leaves nothing open. */
  lemma OrderReads(key: seq<Word>)
    requires ReadText(key).sections == []
    ensures Whole(OrderWords(key)) <==> KeyCloses(key)
    ensures KeyCloses(key) ==> ReadText(OrderWords(key)) == Reading([], [OrderSection(key)])
  {
    if QuoteAfter(None, key).Some? {
      OrderKeepsQuote(key);
    } else {
      OrderTokens(key);
      SpellingFixed(By);
      KeywordNeutral(Kw(By));
      AscWord();
      KeyBetween(Kw(By).text, Tokens(None, key), ASC.text);
      SpellingFixed(Order);
      HeadingOfKeyword(Kw(Order));
      HeadingRead(Name(Kw(Order).text), [Name(Kw(By).text)] + Tokens(None, key) + [Name(ASC.text)]);
    }
  }

  lemma OrderBehind(base: seq<Word>, key: seq<Word>)
    requires Statement(base).Some? && ReadText(key).sections == []
    ensures Statement(base + OrderWords(key))
         == if KeyCloses(key) then Some(Statement(base).value + [OrderSection(key)]) else None
  {
    OrderHeaded(key);
    OrderReads(key);
    SectionsAppend(base, OrderWords(key));
  }

  lemma OrderedSections(ss: seq<Section>, key: seq<Word>)
    requires Ordinary(ss) && !EndsInOrder(ss)
    ensures Ordinary(ss + [OrderSection(key)]) && EndsInOrder(ss + [OrderSection(key)])
    ensures Unsortable(ss + [OrderSection(key)]) <==> !SortKey(Tokens(None, key))
  {
    var all, b := ss + [OrderSection(key)], OrderSection(key).body;
    AscWord();
    SpellingFixed(By);
    KeywordUpper(Kw(By));
    assert b[1..|b| - 1] == Tokens(None, key);
    forall i | 0 <= i < |ss| ensures !EndsQuery(all[i].heading) {
      assert all[i] == ss[i];
    }
  }

  lemma AnswerUnbounded(db: Database, ss: seq<Section>)
    requires Ordinary(ss)
    ensures Answer(db, ss) == if Unsortable(ss) then Err(NoSortKey) else Told(db(ss))
  {
    UnboundedOrdinary(ss);
    if !Unsortable(ss) {
      var r := Told(db(ss));
      assert Windowed(r, None, None) == r;
    }
  }

  /** A query with an order behind it is answered, if at all, exactly when the key can be sorted by. */
  lemma OrderedAnswer(db: Database, base: seq<Word>, key: seq<Word>)
    requires Statement(base).Some? && Ordinary(Statement(base).value) && !EndsInOrder(Statement(base).value)
    requires ReadText(key).sections == []
    ensures Statement(base + OrderWords(key)).Some? ==> Ordinary(Statement(base + OrderWords(key)).value)
    ensures Execute(db, base + OrderWords(key))
         == if SortableBy(key) then Told(db(Statement(base).value + [OrderSection(key)]))
            else Err(if KeyCloses(key) then NoSortKey else Malformed)
  {
    var ss := Statement(base).value + [OrderSection(key)];
    OrderBehind(base, key);
    OrderedSections(Statement(base).value, key);
    UnboundedOrdinary(ss);
    if KeyCloses(key) {
      AnswerUnbounded(db, ss);
    }
  }
}
