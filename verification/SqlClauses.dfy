/** The expression against the database: when a text is read section by section as the clauses the
    expression finds in it, and which rows its SELECTs let through. */
module SqlClauses {
  import opened Wrappers
  import Strings
  import opened Sequences
  import opened SqlText
  import opened SqlRewrite
  import opened SqlFirstMatch
  import opened SqlTokens
  import opened SqlCondition
  import opened SqlStatements

  // ----- When both readings agree -----

  /** Every clause is closed and free of reserved words outside its parentheses and quotes: no second
      SELECT, no semicolon, no FOR or FETCH, no LIMIT the expression could not take. */
  predicate Simple(p: ParsedSql) {
    Flat(p.select + [Kw(From)] + p.from_) && forall l :: WHERE <= l < 4 ==> Flat(Clause(p, l))
  }

  predicate IsNumberSection(s: Section, key: Key, n: int) {
    && s.heading == ClauseOf(key) && |s.body| == 1 && s.body[0].Name?
    && AllDigits(s.body[0].text) && ParseInt(s.body[0].text) == n
  }

  predicate LimitsReadAs(ss: seq<Section>, p: ParsedSql) {
    && |ss| == (if p.limit.Some? then 1 else 0) + (if p.offset.Some? then 1 else 0)
    && (p.limit.Some? ==> IsNumberSection(ss[0], Limit, p.limit.value))
    && (p.offset.Some? ==> IsNumberSection(ss[|ss| - 1], Offset, p.offset.value))
  }

  /** The section of one clause, with or without a BY. */
  predicate IsClauseSection(s: Section, level: nat, c: seq<Word>)
    requires level < 4
  {
    && s.heading == ClauseOf(FirstKey(level)) && |s.body| >= KeywordLength(level) - 1
    && s.body[KeywordLength(level) - 1..] == Tokens(None, c)
  }

  /** The sections are the clauses from that level on, in their order: the heading is the clause's
      keyword, the body the clause, behind BY where there is one. */
  predicate TailReadAs(level: nat, ss: seq<Section>, p: ParsedSql)
    requires level <= 4
    decreases 4 - level
  {
    if level == 4 then LimitsReadAs(ss, p)
    else if Clause(p, level) == [] then TailReadAs(level + 1, ss, p)
    else ss != [] && IsClauseSection(ss[0], level, Clause(p, level)) && TailReadAs(level + 1, ss[1..], p)
  }

  /** The FROM of a text with that value. */
  function FromWord(ws: seq<Word>, p: ParsedSql): Word {
    if 1 + |p.select| < |ws| then ws[1 + |p.select|] else Kw(From)
  }

  predicate ReadAs(ss: seq<Section>, p: ParsedSql, from_: Word) {
    && ss != [] && ss[0] == Section(ClauseOf(Select), Tokens(None, p.select + [from_] + p.from_))
    && TailReadAs(WHERE, ss[1..], p)
  }

  lemma LexedParts(a: seq<Word>, b: seq<Word>)
    requires Lexed(a + b)
    ensures Lexed(a) && Lexed(b)
  {
    forall i | 0 <= i < |a| ensures a[i] == Lex(a[i].text) {
      assert (a + b)[i] == a[i];
    }
    forall i | 0 <= i < |b| ensures b[i] == Lex(b[i].text) {
      assert (a + b)[|a| + i] == b[i];
    }
  }

  lemma LexedTail(ws: seq<Word>, n: nat)
    requires n <= |ws| && Lexed(ws)
    ensures Lexed(ws[..n]) && Lexed(ws[n..])
  {
  }

  lemma HeadingOfKeyword(w: Word)
    requires w == Lex(w.text) && IsClauseKey(w.key)
    ensures HeadingOf(Name(w.text)) == Some(ClauseOf(w.key))
  {
  }

  lemma FrontToken(w: Word, ws: seq<Word>)
    requires w == Lex(w.text) && w.key != Plain
    ensures Tokens(None, [w] + ws) == [Name(w.text)] + Tokens(None, ws)
    ensures QuoteAfter(None, [w] + ws) == QuoteAfter(None, ws)
  {
    KeywordToken(w);
    TokensConcat(None, [w], ws);
  }

  /** A keyword and words without a heading are one section. */
  lemma OneSection(w: Word, body: seq<Word>)
    requires w == Lex(w.text) && IsClauseKey(w.key) && Flat(body)
    ensures ReadText([w] + body) == Reading([], [Section(ClauseOf(w.key), Tokens(None, body))])
    ensures Whole([w] + body) && Headed([w] + body)
  {
    FrontToken(w, body);
    HeadingOfKeyword(w);
    FlatText(body);
    var t, ts := Name(w.text), Tokens(None, body);
    assert ([t] + ts)[1..] == ts;
  }

  lemma OneStatement(w: Word, body: seq<Word>)
    requires w == Lex(w.text) && IsClauseKey(w.key) && Flat(body)
    ensures Statement([w] + body) == Some([Section(ClauseOf(w.key), Tokens(None, body))])
  {
    OneSection(w, body);
  }

  lemma NeutralFlat(w: Word, body: seq<Word>)
    requires w == Lex(w.text) && w.key in {From, By, Number} && Flat(body)
    ensures Flat([w] + body) && Tokens(None, [w] + body) == [Name(w.text)] + Tokens(None, body)
  {
    FrontToken(w, body);
    KeywordNeutral(w);
    FlatText(body);
    NeutralRead(START, w.text, Tokens(None, body));
    FlatRead(START, [Name(w.text)] + Tokens(None, body));
  }

  lemma EmptyIsFlat()
    ensures Flat([])
  {
  }

  /** The words are those sections, and begin with a heading if there are any. */
  predicate Sectioned(ws: seq<Word>, ss: seq<Section>) {
    Whole(ws) && ReadText(ws) == Reading([], ss) && (ws != [] ==> Headed(ws))
  }

  /** The words are sections only. */
  predicate Clean(ws: seq<Word>) { Sectioned(ws, ReadText(ws).sections) }

  lemma EmptySectioned()
    ensures Sectioned([], [])
  {
  }

  lemma SectionedConcat(a: seq<Word>, x: seq<Section>, b: seq<Word>, y: seq<Section>)
    requires Sectioned(a, x) && Sectioned(b, y)
    ensures Sectioned(a + b, x + y)
  {
    TokensConcat(None, a, b);
    if a == [] {
      assert a + b == b && x + y == y;
    } else if b == [] {
      assert a + b == a && x + y == x;
    } else {
      SectionsAppend(a, b);
      assert (Tokens(None, a) + Tokens(None, b))[0] == Tokens(None, a)[0];
    }
  }

  lemma NumberDigits(w: Word)
    requires w == Lex(w.text) && w.key == Number
    ensures AllDigits(w.text)
  {
  }

  lemma NumberSection(key: Word, number: Word)
    requires key == Lex(key.text) && IsClauseKey(key.key) && number == Lex(number.text) && number.key == Number
    ensures Sectioned([key] + [number], [Section(ClauseOf(key.key), [Name(number.text)])])
    ensures AllDigits(number.text)
  {
    EmptyIsFlat();
    NeutralFlat(number, []);
    assert [number] + [] == [number];
    assert [Name(number.text)] + Tokens(None, []) == [Name(number.text)];
    OneSection(key, [number]);
    NumberDigits(number);
  }

  /** The words of LIMIT and OFFSET. */
  lemma LimitShape(ws: seq<Word>, p: ParsedSql)
    requires SplitsTail(4, ws, p)
    ensures p.limit.None? && p.offset.None? ==> ws == []
    ensures p.limit.Some? ==> |ws| >= 2 && HasNumber(ws, Limit) && p.limit.value == ParseInt(ws[1].text)
    ensures p.offset.Some? ==>
              |ws| >= 2 && HasNumber(ws[|ws| - 2..], Offset) && p.offset.value == ParseInt(ws[|ws| - 1].text)
    ensures |ws| == (if p.limit.Some? then 2 else 0) + (if p.offset.Some? then 2 else 0)
  {
  }

  /** One of LIMIT and OFFSET, or neither. */
  lemma BoundReads(ws: seq<Word>, key: Key, n: Option<int>) returns (ss: seq<Section>)
    requires Lexed(ws) && IsClauseKey(key) && |ws| == if n.Some? then 2 else 0
    requires n.Some? ==> HasNumber(ws, key) && n.value == ParseInt(ws[1].text)
    ensures Sectioned(ws, ss) && |ss| == (if n.Some? then 1 else 0)
    ensures n.Some? ==> IsNumberSection(ss[0], key, n.value)
  {
    if n.Some? {
      NumberSection(ws[0], ws[1]);
      ss := [Section(ClauseOf(key), [Name(ws[1].text)])];
      assert ws == [ws[0]] + [ws[1]];
    } else {
      EmptySectioned();
      ss := [];
    }
  }

  lemma BoundsReadAs(x: seq<Section>, y: seq<Section>, p: ParsedSql)
    requires |x| == (if p.limit.Some? then 1 else 0) && |y| == (if p.offset.Some? then 1 else 0)
    requires p.limit.Some? ==> IsNumberSection(x[0], Limit, p.limit.value)
    requires p.offset.Some? ==> IsNumberSection(y[0], Offset, p.offset.value)
    ensures LimitsReadAs(x + y, p)
  {
  }

  lemma LimitsRead(ws: seq<Word>, p: ParsedSql)
    requires Lexed(ws) && SplitsTail(4, ws, p)
    ensures Clean(ws) && LimitsReadAs(ReadText(ws).sections, p)
  {
    LimitShape(ws, p);
    var n := if p.limit.Some? then 2 else 0;
    LexedTail(ws, n);
    assert |ws| - 2 == n || p.offset.None?;
    var x := BoundReads(ws[..n], Limit, p.limit);
    var y := BoundReads(ws[n..], Offset, p.offset);
    SectionedConcat(ws[..n], x, ws[n..], y);
    assert ws == ws[..n] + ws[n..];
    BoundsReadAs(x, y, p);
  }

  /** A keyword, BY, and words without a heading. */
  lemma TwoKeywords(a: Word, b: Word, c: seq<Word>)
    requires a == Lex(a.text) && IsClauseKey(a.key) && b == Lex(b.text) && b.key == By && Flat(c)
    ensures Sectioned([a] + ([b] + c), [Section(ClauseOf(a.key), [Name(b.text)] + Tokens(None, c))])
  {
    NeutralFlat(b, c);
    OneSection(a, [b] + c);
  }

  lemma OneKeyword(a: Word, c: seq<Word>)
    requires a == Lex(a.text) && IsClauseKey(a.key) && Flat(c)
    ensures Sectioned([a] + c, [Section(ClauseOf(a.key), Tokens(None, c))])
  {
    OneSection(a, c);
  }

  /** One clause behind its keyword. */
  lemma ClauseReads(level: nat, kw: seq<Word>, c: seq<Word>) returns (s: Section)
    requires level < 4 && |kw| == KeywordLength(level) && StartsWith(level, kw) && Lexed(kw) && Flat(c)
    ensures Sectioned(kw + c, [s]) && IsClauseSection(s, level, c)
  {
    if KeywordLength(level) == 2 {
      TwoKeywords(kw[0], kw[1], c);
      assert kw + c == [kw[0]] + ([kw[1]] + c);
      s := Section(ClauseOf(FirstKey(level)), [Name(kw[1].text)] + Tokens(None, c));
    } else {
      OneKeyword(kw[0], c);
      assert kw + c == [kw[0]] + c;
      s := Section(ClauseOf(FirstKey(level)), Tokens(None, c));
    }
  }

  lemma SplitTaken(level: nat, ws: seq<Word>, p: ParsedSql, k: nat, n: nat)
    requires level < 4 && SplitsTail(level, ws, p) && Clause(p, level) != []
    requires k == KeywordLength(level) && n == k + |Clause(p, level)|
    ensures n <= |ws| && StartsWith(level, ws) && ws[k..n] == Clause(p, level) && SplitsTail(level + 1, ws[n..], p)
  {
  }

  lemma StartedWords(level: nat, ws: seq<Word>, k: nat)
    requires level < 4 && StartsWith(level, ws) && k == KeywordLength(level) <= |ws|
    ensures StartsWith(level, ws[..k])
  {
  }

  lemma ThreeParts(ws: seq<Word>, k: nat, n: nat)
    requires k <= n <= |ws|
    ensures ws == ws[..k] + ws[k..n] + ws[n..]
  {
  }

  lemma SplitClause(level: nat, ws: seq<Word>, p: ParsedSql, k: nat, n: nat)
    requires level < 4 && SplitsTail(level, ws, p) && Clause(p, level) != [] && Lexed(ws)
    requires k == KeywordLength(level) && n == k + |Clause(p, level)|
    ensures n <= |ws| && StartsWith(level, ws[..k]) && Lexed(ws[..k]) && Lexed(ws[n..])
    ensures ws == ws[..k] + Clause(p, level) + ws[n..] && SplitsTail(level + 1, ws[n..], p)
  {
    SplitTaken(level, ws, p, k, n);
    StartedWords(level, ws, k);
    LexedTail(ws, k);
    LexedTail(ws, n);
    ThreeParts(ws, k, n);
  }

  /** The words have sections that are the clauses of `p` from that level on. */
  predicate TailAgrees(level: nat, ws: seq<Word>, p: ParsedSql)
    requires level <= 4
  {
    Clean(ws) && TailReadAs(level, ReadText(ws).sections, p)
  }

  lemma TailPrepends(level: nat, s: Section, ss: seq<Section>, p: ParsedSql)
    requires level < 4 && Clause(p, level) != [] && IsClauseSection(s, level, Clause(p, level))
    requires TailReadAs(level + 1, ss, p)
    ensures TailReadAs(level, [s] + ss, p)
  {
    assert ([s] + ss)[1..] == ss;
  }

  lemma SectionThenTail(level: nat, s: Section, ws: seq<Word>, front: seq<Word>, rest: seq<Word>, p: ParsedSql)
    requires level < 4 && Clause(p, level) != [] && IsClauseSection(s, level, Clause(p, level))
    requires ws == front + rest && Sectioned(front, [s]) && TailAgrees(level + 1, rest, p)
    ensures TailAgrees(level, ws, p)
  {
    var ss := ReadText(rest).sections;
    SectionedConcat(front, [s], rest, ss);
    TailPrepends(level, s, ss, p);
  }

  lemma NoClauseThenTail(level: nat, ws: seq<Word>, p: ParsedSql)
    requires level < 4 && Clause(p, level) == [] && TailAgrees(level + 1, ws, p)
    ensures TailAgrees(level, ws, p)
  {
  }

  ghost predicate FlatFrom(level: nat, p: ParsedSql) { forall l :: level <= l < 4 ==> Flat(Clause(p, l)) }

  /** From a clause on, what the expression split is what the database reads. */
  lemma {:induction false} TailReads(level: nat, ws: seq<Word>, p: ParsedSql)
    requires level <= 4 && Lexed(ws) && SplitsTail(level, ws, p) && FlatFrom(level, p)
    ensures TailAgrees(level, ws, p)
    decreases 4 - level
  {
    if level == 4 {
      LimitsRead(ws, p);
    } else if Clause(p, level) == [] {
      TailReads(level + 1, ws, p);
      NoClauseThenTail(level, ws, p);
    } else {
      var k := KeywordLength(level);
      var n := k + |Clause(p, level)|;
      SplitClause(level, ws, p, k, n);
      TailReads(level + 1, ws[n..], p);
      var s := ClauseReads(level, ws[..k], Clause(p, level));
      SectionThenTail(level, s, ws, ws[..k] + Clause(p, level), ws[n..], p);
    }
  }

  // ----- FROM in any spelling -----

  /** Tokens no reading tells apart: both inside a quote, or both names that open and close nothing. */
  predicate Alike(t: Token, u: Token) {
    t == u || (t.Inside? && u.Inside?) || (t.Name? && u.Name? && Neutral(t.text) && Neutral(u.text))
  }

  ghost predicate AllAlike(ts: seq<Token>, us: seq<Token>) {
    |ts| == |us| && forall i :: 0 <= i < |ts| ==> Alike(ts[i], us[i])
  }

  lemma {:induction false} AlikeRead(s: Scan, ts: seq<Token>, us: seq<Token>)
    requires AllAlike(ts, us)
    ensures Left(s, ts) == Left(s, us) && |Read(s, ts).sections| == |Read(s, us).sections|
    decreases |ts|
  {
    if ts != [] {
      assert Alike(ts[0], us[0]);
      AlikeRead(Step(s, ts[0]), ts[1..], us[1..]);
    }
  }

  /** A text without the quote character, inside the quote. */
  lemma {:induction false} QuotedWord(q: char, text: string)
    requires forall i :: 0 <= i < |text| ==> text[i] != q
    ensures QuoteText(Some(q), text) == Some(q) && |WordTokens(Some(q), "", text)| == |text| + 1
    ensures forall i :: 0 <= i <= |text| ==> WordTokens(Some(q), "", text)[i].Inside?
    decreases |text|
  {
    if text != "" {
      QuotedWord(q, text[1..]);
    }
  }

  /** The quote a text can leave open is a quote character. */
  lemma {:induction false} OpenQuote(q: Quote, text: string)
    requires q.Some? ==> IsQuote(q.value)
    ensures QuoteText(q, text).Some? ==> IsQuote(QuoteText(q, text).value)
    decreases |text|
  {
    if text != "" {
      OpenQuote(QuoteChar(q, text[0]), text[1..]);
    }
  }

  lemma {:induction false} OpenQuotes(q: Quote, ws: seq<Word>)
    requires q.Some? ==> IsQuote(q.value)
    ensures QuoteAfter(q, ws).Some? ==> IsQuote(QuoteAfter(q, ws).value)
    decreases |ws|
  {
    if ws != [] {
      OpenQuote(q, ws[0].text);
      OpenQuotes(QuoteText(q, ws[0].text), ws[1..]);
    }
  }

  lemma FromToken(q: Quote, w: Word)
    requires w == Lex(w.text) && w.key == From && (q.Some? ==> IsQuote(q.value))
    ensures QuoteAfter(q, [w]) == q && |Tokens(q, [w])| == if q.Some? then 5 else 1
    ensures forall i :: 0 <= i < |Tokens(q, [w])| ==>
              if q.Some? then Tokens(q, [w])[i].Inside? else Tokens(q, [w])[i] == Name(w.text)
  {
    KeywordToken(w);
    KeywordUpper(w);
    if q.Some? {
      QuotedWord(q.value, w.text);
      assert [w][1..] == [];
      assert Tokens(q, [w]) == WordTokens(q, "", w.text);
    }
  }

  lemma FromAlike(a: seq<Word>, w: Word, k: Word, b: seq<Word>)
    requires w == Lex(w.text) && k == Lex(k.text) && w.key == k.key == From
    ensures AllAlike(Tokens(None, a + [w] + b), Tokens(None, a + [k] + b))
    ensures QuoteAfter(None, a + [w] + b) == QuoteAfter(None, a + [k] + b)
  {
    var q := QuoteAfter(None, a);
    OpenQuotes(None, a);
    FromToken(q, w);
    FromToken(q, k);
    KeywordNeutral(w);
    KeywordNeutral(k);
    TokensConcat(None, a + [w], b);
    TokensConcat(None, a, [w]);
    TokensConcat(None, a + [k], b);
    TokensConcat(None, a, [k]);
  }

  lemma FromSpelling(a: seq<Word>, w: Word, b: seq<Word>)
    requires w == Lex(w.text) && w.key == From && Flat(a + [Kw(From)] + b)
    ensures Flat(a + [w] + b)
  {
    SpellingFixed(From);
    FromAlike(a, w, Kw(From), b);
    FlatText(a + [Kw(From)] + b);
    AlikeRead(START, Tokens(None, a + [w] + b), Tokens(None, a + [Kw(From)] + b));
    FlatRead(START, Tokens(None, a + [w] + b));
  }

  // ----- The whole text -----

  lemma FourParts(ws: seq<Word>, i: nat)
    requires 1 <= i < |ws|
    ensures ws == [ws[0]] + ws[1..i] + [ws[i]] + ws[i + 1..]
  {
  }

  lemma WordsRegrouped(a: seq<Word>, b: seq<Word>, c: seq<Word>, d: seq<Word>, e: seq<Word>)
    ensures a + b + c + (d + e) == a + (b + c + d) + e
  {
  }

  lemma SplitParts(ws: seq<Word>, p: ParsedSql, i: nat, tail: seq<Word>)
    requires Splits(ws, p) && i == 1 + |p.select| && tail == ws[i + 1..][|p.from_|..]
    ensures Is(ws, 0, Select) && Is(ws, i, From) && SplitsTail(WHERE, tail, p)
    ensures ws == [ws[0]] + (p.select + [ws[i]] + p.from_) + tail
  {
    assert ws[i + 1..] == p.from_ + tail;
    FourParts(ws, i);
    WordsRegrouped([ws[0]], p.select, [ws[i]], p.from_, tail);
  }

  /** What the expression finds in a text, where its clauses are simple, is what the database reads. */
  lemma SplitReadsAs(ws: seq<Word>, p: ParsedSql)
    requires Lexed(ws) && Splits(ws, p) && Simple(p)
    ensures Statement(ws).Some? && ReadAs(Statement(ws).value, p, FromWord(ws, p))
  {
    var i := 1 + |p.select|;
    var tail := ws[i + 1..][|p.from_|..];
    var head := p.select + [ws[i]] + p.from_;
    SplitParts(ws, p, i, tail);
    LexedParts([ws[0]] + head, tail);
    FromSpelling(p.select, ws[i], p.from_);
    OneSection(ws[0], head);
    TailReads(WHERE, tail, p);
    var ss := ReadText(tail).sections;
    var s := Section(ClauseOf(Select), Tokens(None, head));
    assert Sectioned([ws[0]] + head, [s]);
    SectionedConcat([ws[0]] + head, [s], tail, ss);
    assert ([s] + ss)[1..] == ss;
  }

  /** So it is for every text that parses. */
  lemma ParseReadsAs(ws: seq<Word>)
    requires Lexed(ws) && Parse(ws).Ok? && Simple(Parse(ws).value)
    ensures var p := Parse(ws).value;
      Statement(ws).Some? && ReadAs(Statement(ws).value, p, FromWord(ws, p))
  {
    ParseSplits(ws);
    SplitReadsAs(ws, Parse(ws).value);
  }

  // ----- The rows a text selects -----

  /** The first WHERE before the next SELECT. */
  function WhereOf(ss: seq<Section>): Option<seq<Token>> {
    if ss == [] || ss[0].heading == ClauseOf(Select) then None
    else if ss[0].heading == ClauseOf(Where) then Some(ss[0].body)
    else WhereOf(ss[1..])
  }

  /** The WHERE of each SELECT. */
  function Wheres(ss: seq<Section>): seq<Option<seq<Token>>> {
    if ss == [] then []
    else if ss[0].heading == ClauseOf(Select) then [WhereOf(ss[1..])] + Wheres(ss[1..])
    else Wheres(ss[1..])
  }

  predicate Passes(v: Valuation, where_: Option<seq<Token>>) {
    where_.None? || AnyHolds(v, Terms(START, where_.value))
  }

  /** A SELECT of the text lets a row through that gives its atoms those values. */
  ghost predicate Chosen(v: Valuation, ws: seq<Word>) {
    && Statement(ws).Some?
    && exists i :: 0 <= i < |Wheres(Statement(ws).value)| && Passes(v, Wheres(Statement(ws).value)[i])
  }

  /** Sections that belong to one SELECT and are not its WHERE. */
  predicate Rest(ss: seq<Section>) {
    ss == [] || (ss[0].heading != ClauseOf(Select) && ss[0].heading != ClauseOf(Where) && Rest(ss[1..]))
  }

  lemma {:induction false} RestHasNoWhere(ss: seq<Section>)
    requires Rest(ss)
    ensures WhereOf(ss) == None && Wheres(ss) == []
  {
    if ss != [] {
      RestHasNoWhere(ss[1..]);
    }
  }

  lemma LimitsAreRest(ss: seq<Section>, p: ParsedSql)
    requires LimitsReadAs(ss, p)
    ensures Rest(ss)
  {
    assert Rest([]);
    if |ss| == 2 {
      assert ss[1..][1..] == [];
    }
  }

  lemma {:induction false} TailIsRest(level: nat, ss: seq<Section>, p: ParsedSql)
    requires 1 <= level <= 4 && TailReadAs(level, ss, p)
    ensures Rest(ss)
    decreases 4 - level
  {
    if level == 4 {
      LimitsAreRest(ss, p);
    } else if Clause(p, level) == [] {
      TailIsRest(level + 1, ss, p);
    } else {
      TailIsRest(level + 1, ss[1..], p);
    }
  }

  /** One SELECT with its WHERE, if any. */
  lemma OneWhere(head: Section, where_: Option<seq<Token>>, rest: seq<Section>)
    requires head.heading == ClauseOf(Select) && Rest(rest)
    ensures Wheres([head] + (if where_.Some? then [Section(ClauseOf(Where), where_.value)] else []) + rest) == [where_]
  {
    RestHasNoWhere(rest);
    if where_.Some? {
      var s := Section(ClauseOf(Where), where_.value);
      assert ([head] + [s] + rest)[1..] == [s] + rest && ([s] + rest)[1..] == rest;
    } else {
      assert ([head] + [] + rest)[1..] == rest;
    }
  }

  /** A SELECT and a WHERE, both flat. */
  lemma FrontSections(s: Word, head: seq<Word>, w: Word, x: seq<Word>)
    requires s == Lex(s.text) && s.key == Select && w == Lex(w.text) && w.key == Where && Flat(head) && Flat(x)
    ensures Sectioned([s] + head + ([w] + x),
                      [Section(ClauseOf(Select), Tokens(None, head)), Section(ClauseOf(Where), Tokens(None, x))])
  {
    OneSection(s, head);
    OneSection(w, x);
    var y, z := Section(ClauseOf(Select), Tokens(None, head)), Section(ClauseOf(Where), Tokens(None, x));
    SectionedConcat([s] + head, [y], [w] + x, [z]);
    assert [y] + [z] == [y, z];
  }

  lemma NoWhereRead(ss: seq<Section>, p: ParsedSql)
    requires ss != [] && ss[0].heading == ClauseOf(Select) && TailReadAs(1, ss[1..], p)
    ensures Wheres(ss) == [None]
  {
    TailIsRest(1, ss[1..], p);
    OneWhere(ss[0], None, ss[1..]);
    assert ss == [ss[0]] + [] + ss[1..];
  }

  lemma SomeWhereRead(ss: seq<Section>, p: ParsedSql)
    requires |ss| >= 2 && ss[0].heading == ClauseOf(Select) && ss[1].heading == ClauseOf(Where)
    requires TailReadAs(1, ss[2..], p)
    ensures Wheres(ss) == [Some(ss[1].body)]
  {
    TailIsRest(1, ss[2..], p);
    OneWhere(ss[0], Some(ss[1].body), ss[2..]);
    assert ss == [ss[0]] + [ss[1]] + ss[2..];
  }

  lemma WhereRead(ss: seq<Section>, p: ParsedSql)
    requires ss != [] && ss[0].heading == ClauseOf(Select) && TailReadAs(WHERE, ss[1..], p)
    ensures Wheres(ss) == [if p.where_ == [] then None else Some(Tokens(None, p.where_))]
  {
    assert Clause(p, WHERE) == p.where_;
    if p.where_ == [] {
      NoWhereRead(ss, p);
    } else {
      assert ss[1..][1..] == ss[2..];
      SomeWhereRead(ss, p);
    }
  }

  lemma OneWhereChosen(v: Valuation, ws: seq<Word>, where_: Option<seq<Token>>)
    requires Statement(ws).Some? && Wheres(Statement(ws).value) == [where_]
    ensures Chosen(v, ws) <==> Passes(v, where_)
  {
    assert Wheres(Statement(ws).value)[0] == where_;
  }

  /** Where both readings agree, the text selects the rows that satisfy the WHERE of the parse. */
  lemma ChosenExactly(v: Valuation, ws: seq<Word>)
    requires Lexed(ws) && Parse(ws).Ok? && Simple(Parse(ws).value)
    ensures Chosen(v, ws) <==> Selects(v, Parse(ws).value.where_)
  {
    var p := Parse(ws).value;
    ParseReadsAs(ws);
    WhereRead(Statement(ws).value, p);
    OneWhereChosen(v, ws, if p.where_ == [] then None else Some(Tokens(None, p.where_)));
  }

  // ----- A condition between other clauses -----

  /** A SELECT over `head` with that WHERE, if any, and `tail` behind it. */
  function QueryWith(head: seq<Word>, where_: seq<Word>, tail: seq<Word>): seq<Word> {
    [Kw(Select)] + head + (if where_ == [] then [] else [Kw(Where)] + where_) + tail
  }

  /** The tail holds neither a SELECT nor a WHERE of its own. */
  predicate Frame(head: seq<Word>, tail: seq<Word>) {
    Flat(head) && Clean(tail) && Rest(ReadText(tail).sections)
  }

  lemma FrameWords(select: Word, where_: Word, head: seq<Word>, x: seq<Word>, tail: seq<Word>, rest: seq<Section>)
    requires select == Lex(select.text) && select.key == Select && where_ == Lex(where_.text) && where_.key == Where
    requires Flat(head) && Flat(x) && Sectioned(tail, rest)
    ensures var s, w := Section(ClauseOf(Select), Tokens(None, head)), Section(ClauseOf(Where), Tokens(None, x));
      && Sectioned([select] + head + ([where_] + x) + tail, [s] + [w] + rest)
      && Sectioned([select] + head + tail, [s] + rest)
  {
    var s, w := Section(ClauseOf(Select), Tokens(None, head)), Section(ClauseOf(Where), Tokens(None, x));
    OneSection(select, head);
    SectionedConcat([select] + head, [s], tail, rest);
    FrontSections(select, head, where_, x);
    assert [s] + [w] == [s, w];
    SectionedConcat([select] + head + ([where_] + x), [s] + [w], tail, rest);
  }

  lemma FrameSections(head: seq<Word>, where_: seq<Word>, tail: seq<Word>, rest: seq<Section>)
    requires Flat(head) && Flat(where_) && Sectioned(tail, rest)
    ensures var s := Section(ClauseOf(Select), Tokens(None, head));
      var w := if where_ == [] then [] else [Section(ClauseOf(Where), Tokens(None, where_))];
      Sectioned(QueryWith(head, where_, tail), [s] + w + rest)
  {
    SpellingFixed(Select);
    SpellingFixed(Where);
    FrameWords(Kw(Select), Kw(Where), head, where_, tail, rest);
    if where_ == [] {
      var s := Section(ClauseOf(Select), Tokens(None, head));
      assert [Kw(Select)] + head + [] == [Kw(Select)] + head && [s] + [] == [s];
    }
  }

  /** Whatever stands around it, a flat condition is the WHERE the database sees. */
  lemma ChosenInFrame(v: Valuation, head: seq<Word>, where_: seq<Word>, tail: seq<Word>)
    requires Frame(head, tail) && Flat(where_)
    ensures Chosen(v, QueryWith(head, where_, tail)) <==> Selects(v, where_)
  {
    var rest := ReadText(tail).sections;
    var s := Section(ClauseOf(Select), Tokens(None, head));
    var w := if where_ == [] then None else Some(Tokens(None, where_));
    var ss := [s] + (if w.Some? then [Section(ClauseOf(Where), w.value)] else []) + rest;
    FrameSections(head, where_, tail, rest);
    OneWhere(s, w, rest);
    assert Statement(QueryWith(head, where_, tail)) == Some(ss);
    OneWhereChosen(v, QueryWith(head, where_, tail), w);
  }

  // ----- Parsed values of texts -----

  ghost predicate LexedFrom(level: nat, p: ParsedSql) { forall l :: level <= l < 4 ==> Lexed(Clause(p, l)) }

  lemma {:induction false} TailLexedParts(level: nat, ws: seq<Word>, p: ParsedSql)
    requires level <= 4 && Lexed(ws) && SplitsTail(level, ws, p)
    ensures LexedFrom(level, p)
    decreases 4 - level
  {
    if level < 4 {
      if Clause(p, level) == [] {
        TailLexedParts(level + 1, ws, p);
      } else {
        var k := KeywordLength(level);
        var n := k + |Clause(p, level)|;
        SplitClause(level, ws, p, k, n);
        LexedParts(ws[..k] + Clause(p, level), ws[n..]);
        LexedParts(ws[..k], Clause(p, level));
        TailLexedParts(level + 1, ws[n..], p);
      }
    }
  }

  /** The clauses of a text are made of its words. */
  lemma ParseLexed(ws: seq<Word>)
    requires Lexed(ws) && Parse(ws).Ok?
    ensures var p := Parse(ws).value;
      Lexed(p.select) && Lexed(p.from_) && LexedFrom(WHERE, p)
  {
    var p := Parse(ws).value;
    ParseSplits(ws);
    var i := 1 + |p.select|;
    var tail := ws[i + 1..][|p.from_|..];
    SplitParts(ws, p, i, tail);
    LexedParts([ws[0]] + (p.select + [ws[i]] + p.from_), tail);
    LexedParts([ws[0]], p.select + [ws[i]] + p.from_);
    LexedParts(p.select + [ws[i]], p.from_);
    LexedParts(p.select, [ws[i]]);
    TailLexedParts(WHERE, tail, p);
  }

  lemma AndIsNoHeading()
    ensures HeadingOf(Name("AND")).None? && AND.key == Plain
  {
    assert Strings.Upper("AND") == "AND" && "AND"[0] == 'A';
    assert "SELECT"[0] == 'S' && "FROM"[0] == 'F' && "WHERE"[0] == 'W' && "GROUP"[0] == 'G' && "BY"[0] == 'B';
    assert "HAVING"[0] == 'H' && "ORDER"[0] == 'O' && "LIMIT"[0] == 'L' && "OFFSET"[0] == 'O';
    assert "UNION"[0] == 'U' && "INTERSECT"[0] == 'I' && "EXCEPT"[0] == 'E' && "MINUS"[0] == 'M' && "WINDOW"[0] == 'W';
    assert "FETCH"[0] == 'F' && "FOR"[0] == 'F' && "INTO"[0] == 'I' && "LOCK"[0] == 'L' && "OPTION"[0] == 'O';
    assert !IsDigit("AND"[0]);
  }

  lemma PlainInFront(t: Token, y: seq<Token>)
    requires HeadingOf(t).None? && Next(START, t) == START
    ensures Left(START, [t] + y) == Left(START, y)
    ensures Read(START, [t] + y) == Reading([t] + Read(START, y).lead, Read(START, y).sections)
  {
    assert ([t] + y)[1..] == y;
  }

  /** A token that opens, closes and begins nothing. */
  lemma PlainBetween(x: seq<Token>, t: Token, y: seq<Token>)
    requires Read(START, x) == Reading(x, []) && Left(START, x) == START
    requires HeadingOf(t).None? && Next(START, t) == START
    ensures Left(START, x + [t] + y) == Left(START, y)
    ensures Read(START, x + [t] + y) == Reading(x + [t] + Read(START, y).lead, Read(START, y).sections)
  {
    PlainInFront(t, y);
    ReadConcat(START, x, [t] + y);
    Regroup(x, [t], y);
    Regroup(x, [t], Read(START, y).lead);
  }

  /** Behind a condition without headings and AND, the added condition is read as on its own. */
  lemma JoinRead(old_: seq<Word>, condition: seq<Word>)
    requires Flat(old_)
    ensures var ws := old_ + [AND] + condition;
      && ReadText(ws).lead == Tokens(None, old_) + [Name("AND")] + ReadText(condition).lead
      && ReadText(ws).sections == ReadText(condition).sections
      && Left(START, Tokens(None, ws)) == Left(START, Tokens(None, condition))
  {
    JoinedTokens(old_, condition);
    FlatText(old_);
    AndIsNoHeading();
    AndAtTop();
    PlainBetween(Tokens(None, old_), Name("AND"), Tokens(None, condition));
  }

  lemma JoinFlat(old_: seq<Word>, condition: seq<Word>)
    requires Flat(old_) && Flat(condition)
    ensures Flat(JoinAnd(old_, condition))
  {
    if old_ != [] {
      JoinRead(old_, condition);
      ConditionsJoin(old_, condition);
    }
  }
}
