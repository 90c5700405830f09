/** Why a filtered text must be a single SELECT: behind a UNION the added condition reaches only the
    last SELECT, and the rows of the first are returned whatever the condition says. */
module SqlUnion {
  import opened Wrappers
  import Strings
  import opened SqlText
  import opened SqlRoundTrip
  import opened SqlRewrite
  import opened SqlFirstMatch
  import opened SqlTokens
  import opened SqlCondition
  import opened SqlStatements
  import opened SqlClauses
  import opened SqlNames
  import opened SqlFilter

  // ----- Any text whose WHERE holds a set operator -----

  /** The WHERE is a condition and, behind it, another SELECT of a UNION or the like. */
  ghost predicate Compound(p: ParsedSql, x: seq<Word>, rest: seq<Word>) {
    && Flat(p.select + [Kw(From)] + p.from_) && Flat(x) && p.where_ == x + rest
    && Headed(rest) && HeadingOf(Tokens(None, rest)[0]) == Some(SetOperator)
  }

  /** The words of a text behind its FROM, when there is a WHERE. */
  lemma WhereParts(tail: seq<Word>, p: ParsedSql) returns (w: Word, b: seq<Word>)
    requires Lexed(tail) && SplitsTail(WHERE, tail, p) && p.where_ != []
    ensures tail == [w] + p.where_ + b && w == Lex(w.text) && w.key == Where
  {
    assert Clause(p, WHERE) == p.where_;
    SplitClause(WHERE, tail, p, 1, 1 + |p.where_|);
    w, b := tail[0], tail[1 + |p.where_|..];
    assert tail[..1] == [w];
  }

  /** The first SELECT of such sections has that WHERE. */
  lemma FirstWhere(s: Section, w: Section, more: seq<Section>)
    requires s.heading == ClauseOf(Select) && w.heading == ClauseOf(Where)
    ensures var ws := Wheres([s, w] + more);
      ws != [] && ws[0] == Some(w.body)
  {
    var ss := [s, w] + more;
    assert ss[1..][0] == w;
  }

  lemma CompoundChosen(a: seq<Word>, s: Section, w: Section, more: seq<Word>, v: Valuation)
    requires Sectioned(a, [s, w]) && s.heading == ClauseOf(Select) && w.heading == ClauseOf(Where) && Headed(more)
    requires Statement(a + more).Some? && AnyHolds(v, Terms(START, w.body))
    ensures Chosen(v, a + more)
  {
    SectionsAppend(a, more);
    FirstWhere(s, w, ReadText(more).sections);
    assert Passes(v, Wheres(Statement(a + more).value)[0]);
  }

  lemma HeadedFront(rest: seq<Word>, b: seq<Word>)
    requires Headed(rest)
    ensures Headed(rest + b) && QuoteAfter(None, []) == None
    ensures HeadingOf(Tokens(None, rest + b)[0]) == HeadingOf(Tokens(None, rest)[0])
  {
    TokensConcat(None, rest, b);
  }

  lemma WordsApart(head: seq<Word>, w: seq<Word>, x: seq<Word>, rest: seq<Word>, b: seq<Word>)
    ensures head + (w + (x + rest) + b) == head + (w + x) + (rest + b)
  {
  }

  lemma PiecesChosen(s: Word, head: seq<Word>, w: Word, x: seq<Word>, rest: seq<Word>, b: seq<Word>, ws: seq<Word>,
                     v: Valuation)
    requires s == Lex(s.text) && s.key == Select && w == Lex(w.text) && w.key == Where && Flat(head) && Flat(x)
    requires Headed(rest) && ws == [s] + head + ([w] + (x + rest) + b) && Statement(ws).Some? && Holds(v, x)
    ensures Chosen(v, ws)
  {
    FrontSections(s, head, w, x);
    HeadedFront(rest, b);
    var a := [s] + head + ([w] + x);
    WordsApart([s] + head, [w], x, rest, b);
    CompoundChosen(a, Section(ClauseOf(Select), Tokens(None, head)), Section(ClauseOf(Where), Tokens(None, x)),
                   rest + b, v);
  }

  lemma HeadedNotEmpty(x: seq<Word>, rest: seq<Word>)
    requires Headed(rest)
    ensures x + rest != []
  {
  }

  /** The rows of the first SELECT are chosen, whatever stands behind the set operator. */
  lemma CompoundKeepsItsFirst(ws: seq<Word>, p: ParsedSql, x: seq<Word>, rest: seq<Word>, v: Valuation)
    requires Lexed(ws) && Splits(ws, p) && Compound(p, x, rest) && Statement(ws).Some? && Holds(v, x)
    ensures Chosen(v, ws)
  {
    var i := 1 + |p.select|;
    var tail := ws[i + 1..][|p.from_|..];
    var s, f := ws[0], ws[i];
    SplitParts(ws, p, i, tail);
    LexedParts([s] + (p.select + [f] + p.from_), tail);
    HeadedNotEmpty(x, rest);
    var w, b := WhereParts(tail, p);
    FromSpelling(p.select, f, p.from_);
    PiecesChosen(s, p.select + [f] + p.from_, w, x, rest, b, ws, v);
  }

  lemma WordsJoined(x: seq<Word>, rest: seq<Word>, w: Word, condition: seq<Word>)
    ensures x + (rest + ([w] + condition)) == x + rest + [w] + condition
  {
  }

  lemma CompoundJoined(p: ParsedSql, x: seq<Word>, rest: seq<Word>, condition: seq<Word>)
    requires Compound(p, x, rest)
    ensures Compound(p.(where_ := JoinAnd(p.where_, condition)), x, rest + ([AND] + condition))
  {
    HeadedFront(rest, [AND] + condition);
    HeadedNotEmpty(x, rest);
    WordsJoined(x, rest, AND, condition);
  }

  /** So no condition added to such a text filters the rows of its first SELECT. */
  lemma UnionEscapes(ws: seq<Word>, x: seq<Word>, rest: seq<Word>, condition: seq<Word>, v: Valuation)
    requires Lexed(ws) && Parse(ws).Ok? && Compound(Parse(ws).value, x, rest)
    requires Lexed(condition) && Attachable(Parse(ws).value, condition)
    requires Statement(AddWhereCondition(ws, condition)).Some? && Holds(v, x)
    ensures Chosen(v, AddWhereCondition(ws, condition))
  {
    var p := Parse(ws).value;
    var q := p.(where_ := JoinAnd(p.where_, condition));
    AddWhereExactly(ws, condition);
    JoinedTextLexed(ws, condition);
    ParseSplits(AddWhereCondition(ws, condition));
    CompoundJoined(p, x, rest, condition);
    CompoundKeepsItsFirst(AddWhereCondition(ws, condition), q, x, rest + ([AND] + condition), v);
  }

  // ----- One such text -----

  const UNION := Lex("UNION")

  /** SELECT a FROM t WHERE x */
  function Query(a: string, t: string, x: string): seq<Word> {
    [Kw(Select), Lex(a), Kw(From), Lex(t), Kw(Where), Lex(x)]
  }

  /** ... UNION SELECT b FROM u WHERE y */
  function SecondSelect(b: string, u: string, y: string): seq<Word> { [UNION] + Query(b, u, y) }

  /** The value of SELECT a FROM t WHERE x and whatever stands behind it. */
  function OneOf(a: string, t: string, x: string, more: seq<Word>): ParsedSql {
    NO_CLAUSES.(select := [Lex(a)], from_ := [Lex(t)], where_ := [Lex(x)] + more)
  }

  lemma UnionWord()
    ensures HeadingOf(Name("UNION")) == Some(SetOperator) && UNION.key == Plain && PlainName("UNION")
  {
    assert Strings.Upper("UNION") == "UNION" && "UNION"[0] == 'U';
    assert forall i :: 0 <= i < 5 ==> 'A' <= "UNION"[i] <= 'Z';
    assert "SELECT"[0] == 'S' && "FROM"[0] == 'F' && "WHERE"[0] == 'W' && "GROUP"[0] == 'G' && "BY"[0] == 'B';
    assert "HAVING"[0] == 'H' && "ORDER"[0] == 'O' && "LIMIT"[0] == 'L' && "OFFSET"[0] == 'O';
    assert "CASE"[0] == 'C' && "END"[0] == 'E' && "BETWEEN"[0] == 'B';
    assert !IsDigit("UNION"[0]);
  }

  predicate NoLaterKey(ws: seq<Word>) { forall i :: 0 <= i < |ws| ==> ws[i].key in {Plain, Select, From, Where} }

  /** No word can start a later clause, so all of them are the WHERE. */
  lemma NoLaterKeyUncut(ws: seq<Word>)
    requires NoLaterKey(ws)
    ensures NoTailFrom(1, 0, ws, [])
  {
    forall j | 0 <= j < |ws| ensures !Fits(1, ws[j..] + []) {
      assert (ws[j..] + [])[0] == ws[j];
      FitsNeedsStart(1, ws[j..] + []);
    }
  }

  /** A word read back as itself that opens, closes and separates nothing. */
  ghost predicate Calm(w: Word) {
    && w == Lex(w.text) && PlainName(w.text) && Strings.Upper(w.text) != "OR" && w.key in {Plain, Select, From, Where}
  }

  ghost predicate AllCalm(ws: seq<Word>) { forall i :: 0 <= i < |ws| ==> Calm(ws[i]) }

  lemma CalmText(ws: seq<Word>)
    requires AllCalm(ws)
    ensures Lexed(ws) && PlainNames(ws) && NoLaterKey(ws) && !TopLevelOr(ws)
  {
    forall i | 0 <= i < |ws|
      ensures ws[i] == Lex(ws[i].text) && PlainName(ws[i].text) && Strings.Upper(ws[i].text) != "OR"
    {
      assert Calm(ws[i]);
    }
    forall i | 0 <= i < |ws| ensures ws[i].key in {Plain, Select, From, Where} {
      assert Calm(ws[i]);
    }
    NoTopLevelOr(ws);
  }

  lemma CalmWords(a: string)
    ensures Ident(a) ==> Calm(Lex(a))
    ensures Calm(Kw(Select)) && Calm(Kw(From)) && Calm(Kw(Where)) && Calm(UNION)
  {
    UnionWord();
    KeywordPlain(Select);
    KeywordPlain(From);
    KeywordPlain(Where);
    assert Strings.Upper("UNION")[0] == 'U' && "OR"[0] == 'O';
  }

  lemma SixCalm(a: Word, b: Word, c: Word, d: Word, e: Word, f: Word)
    requires Calm(a) && Calm(b) && Calm(c) && Calm(d) && Calm(e) && Calm(f)
    ensures AllCalm([a, b, c, d, e, f])
  {
  }

  lemma CalmConcat(a: seq<Word>, b: seq<Word>)
    requires AllCalm(a) && AllCalm(b)
    ensures AllCalm(a + b)
  {
  }

  lemma QueryCalm(a: string, t: string, x: string)
    requires Ident(a) && Ident(t) && Ident(x)
    ensures AllCalm(Query(a, t, x))
  {
    CalmWords(a);
    CalmWords(t);
    CalmWords(x);
    SixCalm(Kw(Select), Lex(a), Kw(From), Lex(t), Kw(Where), Lex(x));
  }

  lemma SecondSelectCalm(b: string, u: string, y: string)
    requires Ident(b) && Ident(u) && Ident(y)
    ensures AllCalm(SecondSelect(b, u, y))
  {
    QueryCalm(b, u, y);
    CalmWords(b);
    CalmConcat([UNION], Query(b, u, y));
  }

  lemma OneOfPrinted(a: string, t: string, x: string, more: seq<Word>)
    ensures Printed(OneOf(a, t, x, more)) == Query(a, t, x) + more
  {
    PrintWhereAndLimit(OneOf(a, t, x, more));
  }

  lemma OneOfTails(p: ParsedSql)
    requires p.groupBy == p.having == p.orderBy == [] && p.limit == p.offset == None
    ensures PrintTail(1, p) == [] && CanonicalTail(1, p)
  {
    assert PrintTail(4, p) == PrintTail(3, p) == PrintTail(2, p) == PrintTail(1, p) == [];
    assert CanonicalTail(4, p) && CanonicalTail(3, p) && CanonicalTail(2, p) && CanonicalTail(1, p);
  }

  lemma OneOfCanonical(a: string, t: string, x: string, more: seq<Word>)
    requires NoTailFrom(1, 0, [Lex(x)] + more, [])
    ensures Canonical(OneOf(a, t, x, more)) && PrintTail(1, OneOf(a, t, x, more)) == []
  {
    var p := OneOf(a, t, x, more);
    OneOfTails(p);
    assert p.where_ == [Lex(x)] + more && Clause(p, WHERE) == p.where_;
    assert Uncut(1, p.where_, []);
    assert CanonicalTail(0, p);
  }

  lemma NameTerms(x: string)
    requires Ident(x)
    ensures Flat([Lex(x)]) && TermsOf([Lex(x)]) == [[[Name(x)]]]
  {
    NeutralText([Lex(x)]);
    assert NamesOf([Lex(x)]) == [Name(x)];
    assert Terms(START, []) == [[[]]] + [];
    PartInFront(START, Name(x), [], [], []);
    assert [Name(x)] + [] == [Name(x)];
    assert [[[Name(x)]]] + [] == [[[Name(x)]]];
  }

  /** A single name is a condition of one atom. */
  lemma NameHolds(x: string, v: Valuation)
    requires Ident(x)
    ensures Flat([Lex(x)]) && !TopLevelOr([Lex(x)]) && (Holds(v, [Lex(x)]) <==> v([Name(x)]))
  {
    NameTerms(x);
    OneTermExactly([Lex(x)]);
    var t: Term := [[Name(x)]];
    assert TermHolds(v, t) <==> v(t[0]);
    assert TermsOf([Lex(x)])[0] == t;
  }

  lemma SelectStarts(ws: seq<Word>)
    requires PlainNames(ws) && ws != [] && ws[0] == Kw(Select)
    ensures Statement(ws).Some?
  {
    PlainText(ws);
    KeywordPlain(Select);
    HeadingOfKeyword(Kw(Select));
    assert NamesOf(ws)[0] == Name(Kw(Select).text);
    HeadedRead(START, NamesOf(ws));
  }

  /** The words in front of whatever stands behind x. */
  lemma TextNames(a: string, t: string, x: string, more: seq<Word>)
    requires Ident(a) && Ident(t) && Ident(x) && PlainNames(more) && Lexed(more)
    ensures var ws := Query(a, t, x) + more;
      Lexed(ws) && Statement(ws).Some?
  {
    QueryCalm(a, t, x);
    CalmText(Query(a, t, x));
    SelectStarts(Query(a, t, x) + more);
  }

  lemma ThreeNeutral(a: Word, b: Word, c: Word)
    requires Neutral(a.text) && Neutral(b.text) && Neutral(c.text)
    ensures Flat([a] + [b] + [c])
  {
    NeutralText([a] + [b] + [c]);
  }

  lemma HeadIsFlat(a: string, t: string)
    requires Ident(a) && Ident(t)
    ensures Flat([Lex(a)] + [Kw(From)] + [Lex(t)])
  {
    KeywordPlain(From);
    ThreeNeutral(Lex(a), Kw(From), Lex(t));
  }

  lemma SecondSelectHeaded(b: string, u: string, y: string)
    requires Ident(b) && Ident(u) && Ident(y)
    ensures Headed(SecondSelect(b, u, y)) && HeadingOf(Tokens(None, SecondSelect(b, u, y))[0]) == Some(SetOperator)
  {
    SecondSelectCalm(b, u, y);
    CalmText(SecondSelect(b, u, y));
    PlainTokens(SecondSelect(b, u, y));
    UnionWord();
  }

  lemma UnionParses(a: string, t: string, x: string, b: string, u: string, y: string, p: ParsedSql, rest: seq<Word>)
    requires Ident(a) && Ident(t) && Ident(x) && Ident(b) && Ident(u) && Ident(y)
    requires rest == SecondSelect(b, u, y) && p == OneOf(a, t, x, rest)
    ensures Lexed(Printed(p)) && Parse(Printed(p)) == Ok(p) && PrintTail(1, p) == [] && NoLaterKey(p.where_)
    ensures PlainNames(rest) && Lexed(rest) && Closed(p.where_) && !TopLevelOr(p.where_)
  {
    SecondSelectCalm(b, u, y);
    CalmWords(x);
    CalmConcat([Lex(x)], rest);
    CalmText([Lex(x)] + rest);
    CalmText(rest);
    NoLaterKeyUncut([Lex(x)] + rest);
    OneOfCanonical(a, t, x, rest);
    OneOfPrinted(a, t, x, rest);
    TextNames(a, t, x, rest);
    CanonicalRoundTrips(p);
    PlainText([Lex(x)] + rest);
  }

  /** All that filtering asks of a text and a condition, but for the text being one simple SELECT. */
  ghost predicate MeetsTheRest(ws: seq<Word>, condition: seq<Word>) {
    && Lexed(ws) && Parse(ws).Ok? && Attachable(Parse(ws).value, condition)
    && Lexed(condition) && Flat(condition) && condition != []
    && Closed(Parse(ws).value.where_) && !TopLevelOr(Parse(ws).value.where_) && !TopLevelOr(condition)
  }

  lemma UnionMeetsTheRest(ws: seq<Word>, p: ParsedSql, c: string)
    requires Lexed(ws) && Parse(ws) == Ok(p) && Attachable(p, [Lex(c)]) && Ident(c)
    requires Closed(p.where_) && !TopLevelOr(p.where_)
    ensures MeetsTheRest(ws, [Lex(c)])
  {
    NameHolds(c, atom => true);
    CalmWords(c);
  }

  /** The row on which only x is true is selected, and does not satisfy c. */
  lemma NotFiltered(ws: seq<Word>, first: seq<Word>, rest: seq<Word>, x: string, c: string)
    requires Ident(x) && Ident(c) && x != c && first == [Lex(x)] && Lexed(ws) && Parse(ws).Ok?
    requires Compound(Parse(ws).value, first, rest) && Attachable(Parse(ws).value, [Lex(c)]) && Lexed([Lex(c)])
    requires Statement(AddWhereCondition(ws, [Lex(c)])).Some?
    ensures !FiltersExactly(ws, [Lex(c)])
  {
    var v := atom => atom == [Name(x)];
    NameHolds(x, v);
    NameHolds(c, v);
    UnionEscapes(ws, first, rest, [Lex(c)], v);
    assert Chosen(v, AddWhereCondition(ws, [Lex(c)])) && !Holds(v, [Lex(c)]);
  }

  lemma JoinedOneOf(a: string, t: string, x: string, rest: seq<Word>, c: string)
    ensures var p := OneOf(a, t, x, rest);
      p.(where_ := JoinAnd(p.where_, [Lex(c)])) == OneOf(a, t, x, rest + [AND, Lex(c)])
  {
    assert [Lex(x)] + rest + [AND] + [Lex(c)] == [Lex(x)] + (rest + [AND, Lex(c)]);
  }

  lemma AndIsPlainName()
    ensures PlainName("AND")
  {
    assert Strings.Upper("AND") == "AND" && "AND"[0] == 'A';
    assert "CASE"[0] == 'C' && "END"[0] == 'E' && "BETWEEN"[0] == 'B';
    assert forall i :: 0 <= i < 3 ==> IsNameChar("AND"[i]);
  }

  lemma AddWherePrinted(ws: seq<Word>, p: ParsedSql, condition: seq<Word>, q: ParsedSql)
    requires Parse(ws) == Ok(p) && q == p.(where_ := JoinAnd(p.where_, condition))
    ensures AddWhereCondition(ws, condition) == Printed(q)
  {
  }

  lemma JoinedText(a: string, t: string, x: string, more: seq<Word>, q: ParsedSql)
    requires Ident(a) && Ident(t) && Ident(x) && PlainNames(more) && Lexed(more) && q == OneOf(a, t, x, more)
    ensures Statement(Printed(q)).Some?
  {
    TextNames(a, t, x, more);
    OneOfPrinted(a, t, x, more);
  }

  lemma JoinedMore(rest: seq<Word>, c: string)
    requires PlainNames(rest) && Lexed(rest) && Ident(c)
    ensures PlainNames(rest + [AND, Lex(c)]) && Lexed(rest + [AND, Lex(c)])
  {
    AndIsPlainName();
    CalmWords(c);
  }

  lemma JoinedStatement(a: string, t: string, x: string, rest: seq<Word>, c: string, p: ParsedSql)
    requires Ident(a) && Ident(t) && Ident(x) && Ident(c) && PlainNames(rest) && Lexed(rest)
    requires p == OneOf(a, t, x, rest) && Parse(Printed(p)) == Ok(p)
    ensures Statement(AddWhereCondition(Printed(p), [Lex(c)])).Some?
  {
    var q := p.(where_ := JoinAnd(p.where_, [Lex(c)]));
    JoinedMore(rest, c);
    JoinedOneOf(a, t, x, rest, c);
    JoinedText(a, t, x, rest + [AND, Lex(c)], q);
    AddWherePrinted(Printed(p), p, [Lex(c)], q);
  }

  lemma NoLaterEnd(level: nat, ws: seq<Word>)
    requires 1 <= level < 4 && NoLaterKey(ws)
    ensures !EndsWith(level, ws)
  {
    if |ws| > KeywordLength(level) {
      var i := |ws| - KeywordLength(level);
      assert ws[i..][0] == ws[i];
    }
  }

  lemma UnionAttaches(p: ParsedSql, c: string)
    requires Ident(c) && p.where_ != [] && PrintTail(1, p) == [] && NoLaterKey(p.where_)
    ensures Attachable(p, [Lex(c)])
  {
    NoLaterKeyUncut([Lex(c)]);
    forall l | 1 <= l < 4 ensures !EndsWith(l, p.where_) {
      NoLaterEnd(l, p.where_);
    }
  }

  lemma UnionIsCompound(a: string, t: string, x: string, b: string, u: string, y: string)
    requires Ident(a) && Ident(t) && Ident(x) && Ident(b) && Ident(u) && Ident(y)
    ensures Compound(OneOf(a, t, x, SecondSelect(b, u, y)), [Lex(x)], SecondSelect(b, u, y))
  {
    HeadIsFlat(a, t);
    NameHolds(x, atom => true);
    SecondSelectHeaded(b, u, y);
  }

  /** All of the text's value that matters. */
  lemma UnionHypotheses(a: string, t: string, x: string, b: string, u: string, y: string, c: string)
    returns (ws: seq<Word>, rest: seq<Word>)
    requires Ident(a) && Ident(t) && Ident(x) && Ident(b) && Ident(u) && Ident(y) && Ident(c)
    ensures ws == Query(a, t, x) + ([UNION] + Query(b, u, y)) && MeetsTheRest(ws, [Lex(c)])
    ensures Compound(Parse(ws).value, [Lex(x)], rest) && Statement(AddWhereCondition(ws, [Lex(c)])).Some?
  {
    rest := SecondSelect(b, u, y);
    var p := OneOf(a, t, x, rest);
    ws := Printed(p);
    OneOfPrinted(a, t, x, rest);
    UnionParses(a, t, x, b, u, y, p, rest);
    UnionAttaches(p, c);
    UnionMeetsTheRest(ws, p, c);
    UnionIsCompound(a, t, x, b, u, y);
    JoinedStatement(a, t, x, rest, c, p);
  }

  /** SELECT a FROM t WHERE x UNION SELECT b FROM u WHERE y parses, the condition c is attached to it and
      read back with its WHERE, and no condition has an OR or leaves anything open; still, a row with x
      and without c is selected. */
  lemma UnionText(a: string, t: string, x: string, b: string, u: string, y: string, c: string) returns (ws: seq<Word>)
    requires Ident(a) && Ident(t) && Ident(x) && Ident(b) && Ident(u) && Ident(y) && Ident(c) && x != c
    ensures ws == Query(a, t, x) + ([UNION] + Query(b, u, y))
    ensures MeetsTheRest(ws, [Lex(c)]) && !FiltersExactly(ws, [Lex(c)])
  {
    var rest;
    ws, rest := UnionHypotheses(a, t, x, b, u, y, c);
    NotFiltered(ws, [Lex(x)], rest, x, c);
  }
}
