/** Keywords in any case: which texts are keywords, and that the case they are written in changes
    nothing but themselves. */
module SqlCase {
  import opened Wrappers
  import opened Strings
  import opened SqlText
  import opened SqlRoundTrip
  import opened SqlRewrite
  import opened SqlTokens
  import opened SqlCondition
  import opened SqlStatements

  // ----- Which texts are keywords -----

  predicate DigitsOnly(text: string) { text != "" && forall i :: 0 <= i < |text| ==> '0' <= text[i] <= '9' }

  lemma FirstKeywordsFold(text: string)
    ensures Upper(text) == "SELECT" <==> EqualFold(text, "SELECT")
    ensures Upper(text) == "FROM" <==> EqualFold(text, "FROM")
    ensures Upper(text) == "WHERE" <==> EqualFold(text, "WHERE")
    ensures Upper(text) == "GROUP" <==> EqualFold(text, "GROUP")
    ensures Upper(text) == "BY" <==> EqualFold(text, "BY")
  {
    UpperFolds(text, "SELECT");
    UpperFolds(text, "FROM");
    UpperFolds(text, "WHERE");
    UpperFolds(text, "GROUP");
    UpperFolds(text, "BY");
  }

  lemma LastKeywordsFold(text: string)
    ensures Upper(text) == "HAVING" <==> EqualFold(text, "HAVING")
    ensures Upper(text) == "ORDER" <==> EqualFold(text, "ORDER")
    ensures Upper(text) == "LIMIT" <==> EqualFold(text, "LIMIT")
    ensures Upper(text) == "OFFSET" <==> EqualFold(text, "OFFSET")
  {
    UpperFolds(text, "HAVING");
    UpperFolds(text, "ORDER");
    UpperFolds(text, "LIMIT");
    UpperFolds(text, "OFFSET");
  }

  lemma DigitsAreNoKeyword(text: string)
    requires DigitsOnly(text)
    ensures KeyOf(text) == Number
  {
    assert AllDigits(text);
    NotLetterIsNoKeyword(text);
  }

  lemma NumbersAreDigits(text: string)
    ensures KeyOf(text) == Number <==> DigitsOnly(text)
  {
    if DigitsOnly(text) {
      DigitsAreNoKeyword(text);
    }
  }

  lemma KeysByCapitals(text: string)
    ensures KeyOf(text) == Select <==> Upper(text) == "SELECT"
    ensures KeyOf(text) == From <==> Upper(text) == "FROM"
    ensures KeyOf(text) == Where <==> Upper(text) == "WHERE"
    ensures KeyOf(text) == Group <==> Upper(text) == "GROUP"
    ensures KeyOf(text) == By <==> Upper(text) == "BY"
    ensures KeyOf(text) == Having <==> Upper(text) == "HAVING"
    ensures KeyOf(text) == Order <==> Upper(text) == "ORDER"
    ensures KeyOf(text) == Limit <==> Upper(text) == "LIMIT"
    ensures KeyOf(text) == Offset <==> Upper(text) == "OFFSET"
  {
  }

  /** A word is a keyword exactly when its letters are those of the keyword, in any case; it is a number
      exactly when it is digits only. */
  lemma KeywordsInAnyCase(text: string)
    ensures Lex(text).key == Select <==> EqualFold(text, "SELECT")
    ensures Lex(text).key == From <==> EqualFold(text, "FROM")
    ensures Lex(text).key == Where <==> EqualFold(text, "WHERE")
    ensures Lex(text).key == Group <==> EqualFold(text, "GROUP")
    ensures Lex(text).key == By <==> EqualFold(text, "BY")
    ensures Lex(text).key == Having <==> EqualFold(text, "HAVING")
    ensures Lex(text).key == Order <==> EqualFold(text, "ORDER")
    ensures Lex(text).key == Limit <==> EqualFold(text, "LIMIT")
    ensures Lex(text).key == Offset <==> EqualFold(text, "OFFSET")
    ensures Lex(text).key == Number <==> DigitsOnly(text)
    ensures Lex(text).text == text
  {
    KeysByCapitals(text);
    FirstKeywordsFold(text);
    LastKeywordsFold(text);
    NumbersAreDigits(text);
  }

  // ----- The case of keywords -----

  /** The same word, or the same keyword in another case. */
  predicate SameWord(a: Word, b: Word) {
    a == b || (a.key == b.key && IsKeyword(a.key) && EqualFold(a.text, b.text))
  }

  predicate Recased(a: seq<Word>, b: seq<Word>) {
    |a| == |b| && forall i :: 0 <= i < |a| ==> SameWord(a[i], b[i])
  }

  /** The texts differ at most in the case in which their keywords are written. */
  predicate OnlyKeywordCase(a: seq<Word>, b: seq<Word>) {
    && Lexed(a) && Lexed(b) && |a| == |b|
    && forall i :: 0 <= i < |a| ==> a[i].text == b[i].text || (IsKeyword(a[i].key) && EqualFold(a[i].text, b[i].text))
  }

  lemma RecasedKeyword(a: Word, b: Word)
    requires a == Lex(a.text) && b == Lex(b.text) && IsKeyword(a.key) && EqualFold(a.text, b.text)
    ensures SameWord(a, b)
  {
    var s := Spelling(a.key);
    SpellingLetters(a.key);
    KeywordUpper(a);
    UpperFolds(a.text, s);
    FoldAgain(a.text, b.text, s);
    UpperFolds(b.text, s);
    assert Upper(b.text) == Upper(a.text);
  }

  lemma KeywordCaseRecased(a: seq<Word>, b: seq<Word>)
    requires OnlyKeywordCase(a, b)
    ensures Recased(a, b)
  {
    forall i | 0 <= i < |a| ensures SameWord(a[i], b[i]) {
      if a[i].text != b[i].text {
        RecasedKeyword(a[i], b[i]);
      }
    }
  }

  // ----- Parsing -----

  /** The same clauses, up to the case of keywords inside them, and the same limits. */
  predicate RecasedSql(p: ParsedSql, q: ParsedSql) {
    && Recased(p.select, q.select) && Recased(p.from_, q.from_) && Recased(p.where_, q.where_)
    && Recased(p.groupBy, q.groupBy) && Recased(p.having, q.having) && Recased(p.orderBy, q.orderBy)
    && p.limit == q.limit && p.offset == q.offset
  }

  lemma RecasedParts(a: seq<Word>, b: seq<Word>, i: nat, j: nat)
    requires Recased(a, b) && i <= j <= |a|
    ensures Recased(a[i..j], b[i..j]) && Recased(a[i..], b[i..]) && Similar(a[i..], b[i..])
  {
  }

  lemma {:induction false} CutRecased(level: nat, a: seq<Word>, b: seq<Word>, k: nat)
    requires level <= 4 && Recased(a, b) && k <= |a|
    ensures Cut(level, a, k) == Cut(level, b, k)
    decreases |a| - k
  {
    if k < |a| {
      RecasedParts(a, b, k, k);
      FitsSimilar(level, a[k..], b[k..]);
      CutRecased(level, a, b, k + 1);
    }
  }

  lemma {:induction false} FromRecased(a: seq<Word>, b: seq<Word>, i: nat)
    requires Recased(a, b)
    ensures FindFrom(a, i) == FindFrom(b, i)
    decreases |a| - i
  {
    if i + 1 < |a| {
      assert SameWord(a[i], b[i]);
      FromRecased(a, b, i + 1);
    }
  }

  lemma LimitsRecased(a: seq<Word>, b: seq<Word>, p: ParsedSql, q: ParsedSql)
    requires IsLimitTail(a) && Recased(a, b) && RecasedSql(p, q)
    ensures IsLimitTail(b) && RecasedSql(ReadLimits(a, p), ReadLimits(b, q))
  {
    assert forall i :: 0 <= i < |a| ==> a[i].key == b[i].key && (a[i].key == Number ==> a[i].text == b[i].text);
    if |a| == 4 {
      assert a[2..][0] == a[2] && a[2..][1] == a[3] && b[2..][0] == b[2] && b[2..][1] == b[3];
    }
  }

  lemma ClauseRecased(level: nat, p: ParsedSql, q: ParsedSql, c: seq<Word>, d: seq<Word>)
    requires level < 4 && RecasedSql(p, q) && Recased(c, d)
    ensures RecasedSql(WithClause(p, level, c), WithClause(q, level, d))
  {
  }

  lemma OpensRecased(level: nat, a: seq<Word>, b: seq<Word>)
    requires level < 4 && Recased(a, b)
    ensures Opens(level, a) <==> Opens(level, b)
  {
    assert forall i :: 0 <= i < |a| ==> a[i].key == b[i].key;
  }

  lemma TakenRecased(level: nat, a: seq<Word>, b: seq<Word>, p: ParsedSql, q: ParsedSql) returns (n: nat)
    requires level < 4 && Opens(level, a) && Recased(a, b) && RecasedSql(p, q)
    ensures var k := KeywordLength(level);
      && k < n <= |a| && n == Cut(level + 1, a, k + 1) == Cut(level + 1, b, k + 1)
      && Fits(level + 1, a[n..]) && Recased(a[n..], b[n..])
      && RecasedSql(WithClause(p, level, a[k..n]), WithClause(q, level, b[k..n]))
  {
    var k := KeywordLength(level);
    n := Cut(level + 1, a, k + 1);
    CutRecased(level + 1, a, b, k + 1);
    RecasedParts(a, b, k, n);
    RecasedParts(a, b, n, n);
    ClauseRecased(level, p, q, a[k..n], b[k..n]);
  }

  lemma {:induction false} TailRecased(level: nat, a: seq<Word>, b: seq<Word>, p: ParsedSql, q: ParsedSql)
    requires level <= 4 && Fits(level, a) && Recased(a, b) && RecasedSql(p, q)
    ensures Fits(level, b) && RecasedSql(ReadTail(level, a, p), ReadTail(level, b, q))
    decreases 4 - level
  {
    RecasedParts(a, b, 0, 0);
    FitsSimilar(level, a, b);
    if level == 4 {
      LimitsRecased(a, b, p, q);
    } else {
      OpensRecased(level, a, b);
      if Opens(level, a) {
        var k := KeywordLength(level);
        var n := TakenRecased(level, a, b, p, q);
        TailRecased(level + 1, a[n..], b[n..], WithClause(p, level, a[k..n]), WithClause(q, level, b[k..n]));
      } else {
        TailRecased(level + 1, a, b, p, q);
      }
    }
  }

  lemma ReadFromRecased(s: seq<Word>, s': seq<Word>, a: seq<Word>, b: seq<Word>)
    requires a != [] && Recased(a, b) && Recased(s, s')
    ensures RecasedSql(ReadFrom(s, a), ReadFrom(s', b))
  {
    var n := Cut(WHERE, a, 1);
    CutRecased(WHERE, a, b, 1);
    RecasedParts(a, b, 0, n);
    RecasedParts(a, b, n, n);
    var p, q := NO_CLAUSES.(select := s, from_ := a[..n]), NO_CLAUSES.(select := s', from_ := b[..n]);
    TailRecased(WHERE, a[n..], b[n..], p, q);
  }

  /** Two texts that differ only in the case of their keywords parse alike, clause by clause. */
  lemma ParseInAnyCase(a: seq<Word>, b: seq<Word>)
    requires OnlyKeywordCase(a, b)
    ensures Parse(a).Ok? <==> Parse(b).Ok?
    ensures Parse(a).Ok? ==> RecasedSql(Parse(a).value, Parse(b).value)
    ensures Parse(a).Err? ==> Parse(a) == Parse(b)
  {
    KeywordCaseRecased(a, b);
    FromRecased(a, b, 2);
    assert a != [] ==> SameWord(a[0], b[0]);
    if Parse(a).Ok? {
      var i := FindFrom(a, 2).value;
      RecasedParts(a, b, 1, i);
      RecasedParts(a, b, i + 1, i + 1);
      ReadFromRecased(a[1..i], b[1..i], a[i + 1..], b[i + 1..]);
    }
  }

  lemma CapitalsParse(a: Word, t: Word)
    ensures Parse([Kw(Select), a, Kw(From), t]) == Ok(NO_CLAUSES.(select := [a], from_ := [t]))
  {
    var p := NO_CLAUSES.(select := [a], from_ := [t]);
    OnlyFromAndWhere(p, a, t);
    CanonicalRoundTrips(p);
    PrintWhereAndLimit(p);
    assert Printed(p) == [Kw(Select)] + [a] + [Kw(From)] + [t] + [] + [];
    assert Printed(p) == [Kw(Select), a, Kw(From), t];
  }

  lemma SmallLetters()
    ensures EqualFold("SELECT", "select") && EqualFold("FROM", "from")
  {
    assert "SELECT"[0] == 'S' && "SELECT"[1] == 'E' && "SELECT"[2] == 'L' && "SELECT"[3] == 'E' && "SELECT"[4] == 'C';
    assert "select"[0] == 's' && "select"[1] == 'e' && "select"[2] == 'l' && "select"[3] == 'e' && "select"[4] == 'c';
  }

  lemma SmallLettersRecase(a: Word, t: Word)
    requires a == Lex(a.text) && t == Lex(t.text)
    ensures OnlyKeywordCase([Kw(Select), a, Kw(From), t], [Lex("select"), a, Lex("from"), t])
  {
    SpellingFixed(Select);
    SpellingFixed(From);
    SmallLetters();
  }

  lemma SamePlain(a: Word, c: seq<Word>)
    requires a.key == Plain && Recased([a], c)
    ensures c == [a]
  {
    assert SameWord(a, c[0]);
  }

  /** select a from t */
  lemma SmallLettersParse(a: Word, t: Word)
    requires a == Lex(a.text) && t == Lex(t.text) && a.key == t.key == Plain
    ensures Parse([Lex("select"), a, Lex("from"), t]) == Ok(NO_CLAUSES.(select := [a], from_ := [t]))
  {
    CapitalsParse(a, t);
    SmallLettersRecase(a, t);
    ParseInAnyCase([Kw(Select), a, Kw(From), t], [Lex("select"), a, Lex("from"), t]);
    var q := Parse([Lex("select"), a, Lex("from"), t]).value;
    SamePlain(a, q.select);
    SamePlain(t, q.from_);
    assert q == NO_CLAUSES.(select := [a], from_ := [t]);
  }

  // ----- Other words in any case -----

  /** The connectives of conditions, and the words that begin sections. */
  lemma ConnectivesInAnyCase(text: string)
    ensures Spells(Name(text), "AND") <==> EqualFold(text, "AND")
    ensures Spells(Name(text), "OR") <==> EqualFold(text, "OR")
    ensures Spells(Name(text), "CASE") <==> EqualFold(text, "CASE")
    ensures Spells(Name(text), "END") <==> EqualFold(text, "END")
    ensures Spells(Name(text), "BETWEEN") <==> EqualFold(text, "BETWEEN")
  {
    UpperFolds(text, "AND");
    UpperFolds(text, "OR");
    UpperFolds(text, "CASE");
    UpperFolds(text, "END");
    UpperFolds(text, "BETWEEN");
  }

  /** UNION, INTERSECT, EXCEPT, MINUS */
  predicate SetWord(text: string) {
    EqualFold(text, "UNION") || EqualFold(text, "INTERSECT") || EqualFold(text, "EXCEPT") || EqualFold(text, "MINUS")
  }

  /** FETCH, FOR, INTO, LOCK, OPTION */
  predicate TrailerWord(text: string) {
    EqualFold(text, "FETCH") || EqualFold(text, "FOR") || EqualFold(text, "INTO") || EqualFold(text, "LOCK")
    || EqualFold(text, "OPTION")
  }

  lemma SetOperatorsFold(text: string)
    ensures IsSetOperator(Upper(text)) <==> SetWord(text)
  {
    UpperFolds(text, "UNION");
    UpperFolds(text, "INTERSECT");
    UpperFolds(text, "EXCEPT");
    UpperFolds(text, "MINUS");
  }

  lemma TrailersFold(text: string)
    ensures IsTrailer(Upper(text)) <==> TrailerWord(text)
    ensures Upper(text) == "WINDOW" <==> EqualFold(text, "WINDOW")
  {
    UpperFolds(text, "FETCH");
    UpperFolds(text, "FOR");
    UpperFolds(text, "INTO");
    UpperFolds(text, "LOCK");
    UpperFolds(text, "OPTION");
    UpperFolds(text, "WINDOW");
  }

  lemma OneKindOnly(u: string)
    ensures IsSetOperator(u) ==> !IsTrailer(u) && u != "WINDOW"
    ensures IsTrailer(u) ==> u != "WINDOW"
  {
    assert "UNION"[0] == 'U' && "EXCEPT"[0] == 'E' && "MINUS"[0] == 'M' && "WINDOW"[0] == 'W' && "INTERSECT"[0] == 'I';
    assert "FETCH"[0] == 'F' && "FOR"[0] == 'F' && "INTO"[0] == 'I' && "LOCK"[0] == 'L' && "OPTION"[0] == 'O';
    assert |"INTO"| == 4 && |"INTERSECT"| == 9;
  }

  /** A word that is no keyword of the expression begins a section exactly when it is one of these. */
  lemma HeadingsInAnyCase(text: string)
    requires Lex(text).key == Plain
    ensures HeadingOf(Name(text)) == Some(SetOperator) <==> SetWord(text)
    ensures HeadingOf(Name(text)) == Some(Trailer) <==> TrailerWord(text)
    ensures HeadingOf(Name(text)) == Some(Windows) <==> EqualFold(text, "WINDOW")
    ensures HeadingOf(Symbol(';')) == Some(Trailer)
  {
    SetOperatorsFold(text);
    TrailersFold(text);
    OneKindOnly(Upper(text));
  }
}
