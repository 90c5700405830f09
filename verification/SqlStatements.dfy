/** A text as a database reads it, without the regular expression: its sections, each behind a
    reserved word that stands at the top level, and the rows its SELECTs let through. */
module SqlStatements {
  import opened Wrappers
  import opened Strings
  import opened SqlText
  import opened SqlTokens
  import opened SqlCondition

  // ----- Sections -----

  /** What a reserved word begins: a clause of the expression, another SELECT, a list of windows, or
      something after which no clause of a query can stand. */
  datatype Heading = ClauseOf(key: Key) | SetOperator | Windows | Trailer

  predicate IsSetOperator(u: string) { u == "UNION" || u == "INTERSECT" || u == "EXCEPT" || u == "MINUS" }

  predicate IsTrailer(u: string) { u == "FETCH" || u == "FOR" || u == "INTO" || u == "LOCK" || u == "OPTION" }

  predicate IsClauseKey(key: Key) { key in {Select, Where, Group, Having, Order, Limit, Offset} }

  function HeadingOf(t: Token): Option<Heading> {
    if t == Symbol(';') then Some(Trailer)
    else if !t.Name? then None
    else if IsClauseKey(KeyOf(t.text)) then Some(ClauseOf(KeyOf(t.text)))
    else if IsSetOperator(Upper(t.text)) then Some(SetOperator)
    else if IsTrailer(Upper(t.text)) then Some(Trailer)
    else if Upper(t.text) == "WINDOW" then Some(Windows)
    else None
  }

  datatype Section = Section(heading: Heading, body: seq<Token>)

  /** The tokens before the first heading, and the sections. */
  datatype Reading = Reading(lead: seq<Token>, sections: seq<Section>)

  predicate Starts(s: Scan, t: Token) { AtTop(s) && HeadingOf(t).Some? }

  function Step(s: Scan, t: Token): Scan { if Starts(s, t) then START else Next(s, t) }

  function Left(s: Scan, ts: seq<Token>): Scan
    decreases |ts|
  {
    if ts == [] then s else Left(Step(s, ts[0]), ts[1..])
  }

  function Read(s: Scan, ts: seq<Token>): Reading
    decreases |ts|
  {
    if ts == [] then Reading([], [])
    else
      var r := Read(Step(s, ts[0]), ts[1..]);
      if Starts(s, ts[0]) then Reading([], [Section(HeadingOf(ts[0]).value, r.lead)] + r.sections)
      else Reading([ts[0]] + r.lead, r.sections)
  }

  /** One reading behind another: what comes before its first heading belongs to the last section. */
  function Joined(x: Reading, y: Reading): Reading {
    if x.sections == [] then Reading(x.lead + y.lead, y.sections)
    else
      var n := |x.sections| - 1;
      var last := x.sections[n];
      Reading(x.lead, x.sections[..n] + [last.(body := last.body + y.lead)] + y.sections)
  }

  lemma JoinedSection(h: Heading, x: Reading, y: Reading)
    ensures Joined(Reading([], [Section(h, x.lead)] + x.sections), y)
         == Reading([], [Section(h, Joined(x, y).lead)] + Joined(x, y).sections)
  {
    var first := [Section(h, x.lead)];
    if x.sections == [] {
      assert first + x.sections == first;
    } else {
      var n := |x.sections| - 1;
      assert (first + x.sections)[..n + 1] == first + x.sections[..n];
    }
  }

  lemma JoinedToken(t: Token, x: Reading, y: Reading)
    ensures Joined(Reading([t] + x.lead, x.sections), y) == Reading([t] + Joined(x, y).lead, Joined(x, y).sections)
  {
    assert [t] + x.lead + y.lead == [t] + (x.lead + y.lead);
  }

  lemma {:induction false} ReadConcat(s: Scan, a: seq<Token>, b: seq<Token>)
    ensures Left(s, a + b) == Left(Left(s, a), b)
    ensures Read(s, a + b) == Joined(Read(s, a), Read(Left(s, a), b))
    decreases |a|
  {
    if a == [] {
      assert a + b == b;
    } else {
      var s', tail := Step(s, a[0]), a[1..];
      assert (a + b)[1..] == tail + b;
      ReadConcat(s', tail, b);
      if Starts(s, a[0]) {
        JoinedSection(HeadingOf(a[0]).value, Read(s', tail), Read(Left(s', tail), b));
      } else {
        JoinedToken(a[0], Read(s', tail), Read(Left(s', tail), b));
      }
    }
  }

  /** Without a heading the reading is all lead. */
  lemma {:induction false} FlatRead(s: Scan, ts: seq<Token>)
    requires Read(s, ts).sections == []
    ensures Read(s, ts).lead == ts && Left(s, ts) == After(s, ts)
    decreases |ts|
  {
    if ts != [] {
      FlatRead(Next(s, ts[0]), ts[1..]);
    }
  }

  // ----- Texts -----

  function ReadText(ws: seq<Word>): Reading { Read(START, Tokens(None, ws)) }

  /** Nothing is left open at the end. */
  predicate Whole(ws: seq<Word>) { QuoteAfter(None, ws) == None && AtTop(Left(START, Tokens(None, ws))) }

  /** The sections of a text that is closed and starts with a reserved word. */
  function Statement(ws: seq<Word>): Option<seq<Section>> {
    if Whole(ws) && ReadText(ws).lead == [] then Some(ReadText(ws).sections) else None
  }

  /** A clause that is closed and has no heading of its own. */
  predicate Flat(ws: seq<Word>) { Closed(ws) && ReadText(ws).sections == [] }

  /** The text starts with a heading. */
  predicate Headed(ws: seq<Word>) { Tokens(None, ws) != [] && HeadingOf(Tokens(None, ws)[0]).Some? }

  lemma FlatText(ws: seq<Word>)
    requires Flat(ws)
    ensures ReadText(ws) == Reading(Tokens(None, ws), []) && Left(START, Tokens(None, ws)) == START && Whole(ws)
  {
    FlatRead(START, Tokens(None, ws));
  }

  lemma HeadedRead(s: Scan, ts: seq<Token>)
    requires AtTop(s) && ts != [] && HeadingOf(ts[0]).Some?
    ensures Read(s, ts) == Read(START, ts) && Left(s, ts) == Left(START, ts)
    ensures Read(s, ts).lead == [] && Read(s, ts).sections != []
  {
  }

  lemma JoinedNoLead(x: Reading, y: Reading)
    requires y.lead == []
    ensures Joined(x, y) == Reading(x.lead, x.sections + y.sections)
  {
    if x.sections == [] {
      assert x.lead + y.lead == x.lead;
    } else {
      var n := |x.sections| - 1;
      assert x.sections[n].body + y.lead == x.sections[n].body;
      assert x.sections == x.sections[..n] + [x.sections[n]];
    }
  }

  /** Behind a closed text a reserved word begins sections of its own. */
  lemma SectionsAppend(a: seq<Word>, b: seq<Word>)
    requires Whole(a) && Headed(b)
    ensures ReadText(a + b) == Reading(ReadText(a).lead, ReadText(a).sections + ReadText(b).sections)
    ensures Whole(a + b) <==> Whole(b)
  {
    var ts, us := Tokens(None, a), Tokens(None, b);
    TokensConcat(None, a, b);
    ReadConcat(START, ts, us);
    HeadedRead(Left(START, ts), us);
    JoinedNoLead(ReadText(a), ReadText(b));
  }

  // ----- Keywords and numbers -----

  predicate IsKeyword(key: Key) { key != Number && key != Plain }

  lemma KeywordUpper(w: Word)
    requires w == Lex(w.text) && IsKeyword(w.key)
    ensures Upper(w.text) == Spelling(w.key)
  {
  }

  lemma UpperLetters(text: string, u: string)
    requires Upper(text) == u && forall i :: 0 <= i < |u| ==> 'A' <= u[i] <= 'Z'
    ensures AllNameChars(text)
  {
    forall i | 0 <= i < |text| ensures IsNameChar(text[i]) {
      assert UpperChar(text[i]) == u[i];
    }
  }

  lemma SpellingLetters(key: Key)
    ensures IsKeyword(key) ==> forall i :: 0 <= i < |Spelling(key)| ==> 'A' <= Spelling(key)[i] <= 'Z'
    ensures IsKeyword(key) ==> Spelling(key) != ""
  {
  }

  /** A keyword, in any case, and a number are one name each. */
  lemma KeywordToken(w: Word)
    requires w == Lex(w.text) && w.key != Plain
    ensures Tokens(None, [w]) == [Name(w.text)] && QuoteAfter(None, [w]) == None && AllNameChars(w.text)
  {
    if w.key == Number {
      assert AllDigits(w.text);
    } else {
      KeywordUpper(w);
      SpellingLetters(w.key);
      UpperLetters(w.text, Spelling(w.key));
    }
    OneName(w.text);
  }

  /** A name that opens and closes nothing. */
  predicate Neutral(text: string) {
    && text != "" && AllNameChars(text) && HeadingOf(Name(text)).None?
    && Upper(text) != "CASE" && Upper(text) != "END" && Upper(text) != "BETWEEN" && Upper(text) != "AND"
    && Upper(text) != "OR"
  }

  lemma FreeWord(u: string)
    requires u == "FROM" || u == "BY" || (u != "" && IsDigit(u[0]))
    ensures !IsSetOperator(u) && !IsTrailer(u) && u != "WINDOW"
    ensures u != "CASE" && u != "END" && u != "BETWEEN" && u != "AND" && u != "OR"
  {
    assert "FETCH"[1] == 'E' && "FOR"[1] == 'O' && "BETWEEN"[1] == 'E' && "FROM"[1] == 'R' && "BY"[1] == 'Y';
    assert "UNION"[0] == 'U' && "INTERSECT"[0] == 'I' && "EXCEPT"[0] == 'E' && "MINUS"[0] == 'M' && "WINDOW"[0] == 'W';
    assert "FETCH"[0] == 'F' && "FOR"[0] == 'F' && "INTO"[0] == 'I' && "LOCK"[0] == 'L' && "OPTION"[0] == 'O';
    assert "CASE"[0] == 'C' && "END"[0] == 'E' && "BETWEEN"[0] == 'B' && "AND"[0] == 'A' && "OR"[0] == 'O';
  }

  lemma NumberUpper(w: Word)
    requires w == Lex(w.text) && w.key == Number
    ensures Upper(w.text) != "" && IsDigit(Upper(w.text)[0])
  {
    assert AllDigits(w.text);
    assert Upper(w.text)[0] == UpperChar(w.text[0]);
  }

  lemma KeywordNeutral(w: Word)
    requires w == Lex(w.text) && w.key in {From, By, Number}
    ensures Neutral(w.text)
  {
    KeywordToken(w);
    if w.key == Number {
      NumberUpper(w);
    } else {
      KeywordUpper(w);
    }
    FreeWord(Upper(w.text));
  }

  /** A neutral name in front is one token more. */
  lemma NeutralRead(s: Scan, text: string, ts: seq<Token>)
    requires Neutral(text) && s.depth >= 0
    ensures Next(s, Name(text)) == s
    ensures Read(s, [Name(text)] + ts) == Reading([Name(text)] + Read(s, ts).lead, Read(s, ts).sections)
    ensures Left(s, [Name(text)] + ts) == Left(s, ts)
  {
    assert ([Name(text)] + ts)[1..] == ts;
  }
}
