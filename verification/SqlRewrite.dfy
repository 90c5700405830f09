/** When a rewritten text still means what it was rewritten to: the parse of a text with a LIMIT, an
    ORDER BY or an OFFSET added is the changed value exactly when no clause of the text ended in the
    keyword of a later one. */
module SqlRewrite {
  import opened Wrappers
  import opened Strings
  import opened SqlText
  import opened SqlRoundTrip

  // ----- Printing gives the text back -----

  lemma PartsPrintBack(rest: seq<Word>, n: nat, tail: seq<Word>)
    requires n <= |rest| && Similar(rest[n..], tail)
    ensures Similar(rest, rest[..n] + tail)
  {
    SimilarConcat(rest[..n], rest[..n], rest[n..], tail);
    assert rest == rest[..n] + rest[n..];
  }

  lemma ReadFromPrintsBack(select: seq<Word>, rest: seq<Word>, p: ParsedSql)
    requires rest != [] && p == ReadFrom(select, rest)
    ensures p.select == select && Similar(rest, p.from_ + PrintTail(WHERE, p))
  {
    var n := Cut(WHERE, rest, 1);
    ReadFromParts(select, rest, n, p);
    PartsPrintBack(rest, n, PrintTail(WHERE, p));
  }

  lemma PrintedFromParts(ws: seq<Word>, i: nat, p: ParsedSql)
    requires 2 <= i < |ws| && Is(ws, 0, Select) && Is(ws, i, From) && p.select == ws[1..i]
    requires Similar(ws[i + 1..], p.from_ + PrintTail(WHERE, p))
    ensures Similar(ws, Printed(p))
  {
    var tail := p.from_ + PrintTail(WHERE, p);
    var printed := [Kw(Select)] + p.select + [Kw(From)] + tail;
    assert Printed(p) == printed;
    assert ws == [ws[0]] + ws[1..i] + [ws[i]] + ws[i + 1..];
    SimilarConcat([ws[0]] + ws[1..i] + [ws[i]], [Kw(Select)] + p.select + [Kw(From)], ws[i + 1..], tail);
  }

  /** Printing a parsed text gives its words back, up to the spelling of keywords and numbers. */
  lemma ParsePrintsBack(ws: seq<Word>)
    requires Parse(ws).Ok?
    ensures Similar(ws, Printed(Parse(ws).value))
  {
    var i := FindFrom(ws, 2).value;
    ReadFromPrintsBack(ws[1..i], ws[i + 1..], Parse(ws).value);
    PrintedFromParts(ws, i, Parse(ws).value);
  }

  lemma SpellingFixed(key: Key)
    requires key != Number
    ensures KeyOf(Spelling(key)) == key
  {
    var s := Spelling(key);
    assert forall i :: 0 <= i < |s| ==> !('a' <= s[i] <= 'z');
    assert Upper(s) == s;
    if key == Plain {
      assert !AllDigits(s);
    } else {
      assert s[0] == (match key case Select => 'S' case From => 'F' case Where => 'W' case Group => 'G' case By => 'B'
                      case Having => 'H' case Limit => 'L' case _ => 'O');
      assert s[1] == 'R' || key != Order;
      assert s[1] == 'F' || key != Offset;
    }
  }

  lemma KeywordLexed(level: nat)
    requires level < 4
    ensures Lexed(KeywordWords(level))
  {
    SpellingFixed(FirstKey(level));
    SpellingFixed(By);
  }

  lemma NotLetterIsNoKeyword(s: string)
    requires s != "" && !('a' <= s[0] <= 'z') && !('A' <= s[0] <= 'Z')
    ensures KeyOf(s) == if AllDigits(s) then Number else Plain
  {
    assert Upper(s)[0] == s[0];
    assert "SELECT"[0] == 'S' && "FROM"[0] == 'F' && "WHERE"[0] == 'W' && "GROUP"[0] == 'G' && "BY"[0] == 'B';
    assert "HAVING"[0] == 'H' && "ORDER"[0] == 'O' && "LIMIT"[0] == 'L' && "OFFSET"[0] == 'O';
  }

  lemma NumberLexed(n: int)
    ensures FormatInt(n) == Lex(FormatInt(n).text)
  {
    var s := FormatInt(n).text;
    assert IsDigit(s[0]) || s[0] == '-';
    NotLetterIsNoKeyword(s);
  }

  lemma LimitsLexed(p: ParsedSql)
    ensures Lexed(PrintLimits(p))
  {
    SpellingFixed(Limit);
    SpellingFixed(Offset);
    if p.limit.Some? {
      NumberLexed(p.limit.value);
    }
    if p.offset.Some? {
      NumberLexed(p.offset.value);
    }
  }

  lemma {:induction false} TailLexed(level: nat, p: ParsedSql)
    requires level <= 4 && forall l :: level <= l < 4 ==> Lexed(Clause(p, l))
    ensures Lexed(PrintTail(level, p))
    decreases 4 - level
  {
    if level == 4 {
      LimitsLexed(p);
    } else {
      TailLexed(level + 1, p);
      KeywordLexed(level);
    }
  }

  /** The words printed are the words read back: what a word is follows from its text. */
  lemma PrintedLexed(p: ParsedSql)
    requires Lexed(p.select) && Lexed(p.from_) && forall l :: 0 <= l < 4 ==> Lexed(Clause(p, l))
    ensures Lexed(Printed(p))
  {
    TailLexed(WHERE, p);
    SpellingFixed(Select);
    SpellingFixed(From);
  }

  // ----- Words appended behind a clause -----

  /** No clause of that level or later starts inside the clause, from its second word on. */
  ghost predicate NoKeywordInside(level: nat, c: seq<Word>) {
    forall j, l :: 1 <= j < |c| && level <= l < 4 ==> !StartsWith(l, c[j..])
  }

  predicate EndsWith(level: nat, c: seq<Word>)
    requires level < 4
  {
    |c| > KeywordLength(level) && StartsWith(level, c[|c| - KeywordLength(level)..])
  }

  /** The clause ends in the keyword of a clause of that level or later. */
  ghost predicate Dangles(level: nat, c: seq<Word>) {
    exists l :: level <= l < 4 && EndsWith(l, c)
  }

  /** What follows cannot complete a keyword or a number that the words before it began. */
  predicate Fresh(rest: seq<Word>) {
    rest != [] && rest[0].key != By && rest[0].key != Number && rest[0].key != Offset
  }

  lemma FreshLimits(s: seq<Word>, rest: seq<Word>)
    requires s != [] && Fresh(rest)
    ensures !IsLimitTail(s + rest)
  {
    assert (s + rest)[|s|] == rest[0];
    if |s + rest| == 4 && |s| >= 2 {
      assert (s + rest)[2..][|s| - 2] == rest[0];
    }
  }

  lemma FreshOpens(level: nat, s: seq<Word>, rest: seq<Word>)
    requires level < 4 && s != [] && rest != [] && rest[0].key != By
    ensures Opens(level, s + rest) <==> StartsWith(level, s)
  {
    assert (s + rest)[0] == s[0];
    if |s| == 1 {
      assert (s + rest)[1] == rest[0];
    } else {
      assert (s + rest)[1] == s[1];
    }
  }

  lemma {:induction false} FitsBefore(level: nat, s: seq<Word>, rest: seq<Word>)
    requires level <= 4 && s != [] && Fresh(rest)
    ensures Fits(level, s + rest) <==> exists l :: level <= l < 4 && StartsWith(l, s)
    decreases 4 - level
  {
    if level == 4 {
      FreshLimits(s, rest);
    } else {
      FitsBefore(level + 1, s, rest);
      FreshOpens(level, s, rest);
    }
  }

  lemma UncutBefore(level: nat, c: seq<Word>, rest: seq<Word>)
    requires level <= 4 && Fresh(rest)
    ensures Uncut(level, c, rest) <==> NoKeywordInside(level, c)
  {
    forall j | 1 <= j < |c|
      ensures Fits(level, c[j..] + rest) <==> exists l :: level <= l < 4 && StartsWith(l, c[j..])
    {
      FitsBefore(level, c[j..], rest);
    }
  }

  lemma {:induction false} StartedFits(level: nat, l: nat, s: seq<Word>)
    requires level <= l < 4 && Opens(l, s)
    ensures Fits(level, s)
    decreases 4 - level
  {
    if level < l {
      StartedFits(level + 1, l, s);
    }
  }

  /** Behind a clause that was cut in front of something, anything fresh can be put. */
  lemma UncutHasNoKeyword(level: nat, c: seq<Word>, rest: seq<Word>)
    requires level <= 4 && Uncut(level, c, rest) && rest != []
    ensures NoKeywordInside(level, c)
  {
    forall j, l | 1 <= j < |c| && level <= l < 4 ensures !StartsWith(l, c[j..]) {
      var s := c[j..];
      if StartsWith(l, s) {
        assert (s + rest)[0] == s[0] && (|s| > 1 ==> (s + rest)[1] == s[1]);
        StartedFits(level, l, s + rest);
      }
    }
  }

  /** Behind a clause that was cut at the end of the text, exactly when the clause does not dangle. */
  lemma LastClauseDangles(level: nat, c: seq<Word>)
    requires level <= 4 && Uncut(level, c, [])
    ensures NoKeywordInside(level, c) <==> !Dangles(level, c)
  {
    if Dangles(level, c) {
      var l :| level <= l < 4 && EndsWith(l, c);
      assert StartsWith(l, c[|c| - KeywordLength(l)..]);
    }
    if !NoKeywordInside(level, c) {
      var j, l :| 1 <= j < |c| && level <= l < 4 && StartsWith(l, c[j..]);
      var s := c[j..];
      assert s + [] == s;
      if |s| > KeywordLength(l) {
        StartedFits(level, l, s);
      }
      assert EndsWith(l, c);
    }
  }

  // ----- The rewrites -----

  ghost predicate TailDangles(level: nat, p: ParsedSql)
    requires level <= 4
    decreases 4 - level, p
  {
    level < 4 && ((Clause(p, level) != [] && PrintTail(level + 1, p) == [] && Dangles(level + 1, Clause(p, level)))
                  || TailDangles(level + 1, p))
  }

  /** The last text clause ends in the keyword of a later clause, as in SELECT a FROM t WHERE. */
  ghost predicate Dangling(p: ParsedSql) {
    (PrintTail(WHERE, p) == [] && Dangles(WHERE, p.from_)) || TailDangles(WHERE, p)
  }

  /** The same query up to its ORDER BY, LIMIT and OFFSET. */
  predicate SameUpToOrder(p: ParsedSql, q: ParsedSql) {
    p.select == q.select && p.from_ == q.from_ && p.where_ == q.where_ && p.groupBy == q.groupBy && p.having == q.having
  }

  /** The order can be printed and something is printed from the order on. */
  predicate Ordered(q: ParsedSql) {
    LimitsFit(q) && Uncut(4, q.orderBy, PrintLimits(q)) && (q.limit.Some? || q.orderBy != [])
  }

  lemma {:induction false} OrderedTailIsFresh(level: nat, q: ParsedSql)
    requires level <= 3 && (q.limit.Some? || q.orderBy != [])
    ensures Fresh(PrintTail(level, q))
    decreases 3 - level
  {
    if Clause(q, level) != [] {
      assert PrintTail(level, q)[0] == KeywordWords(level)[0];
    } else if level == 3 {
      assert PrintTail(level, q) == PrintLimits(q);
      assert PrintLimits(q)[0] == Kw(Limit);
    } else {
      OrderedTailIsFresh(level + 1, q);
      assert PrintTail(level, q) == PrintTail(level + 1, q);
    }
  }

  /** One clause in front of its old tail and in front of a fresh one. */
  lemma ClauseStaysUncut(level: nat, c: seq<Word>, rest: seq<Word>, added: seq<Word>)
    requires level <= 4 && Uncut(level, c, rest) && Fresh(added)
    ensures Uncut(level, c, added) <==> !(rest == [] && Dangles(level, c))
  {
    UncutBefore(level, c, added);
    if rest == [] {
      LastClauseDangles(level, c);
    } else {
      UncutHasNoKeyword(level, c, rest);
    }
  }

  lemma TailStepCanonical(level: nat, p: ParsedSql, q: ParsedSql)
    requires level < 3 && CanonicalTail(level, p) && SameUpToOrder(p, q) && Ordered(q)
    requires CanonicalTail(level + 1, q) <==> !TailDangles(level + 1, p)
    ensures CanonicalTail(level, q) <==> !TailDangles(level, p)
  {
    var c, rest := Clause(p, level), PrintTail(level + 1, p);
    assert c == Clause(q, level);
    if c != [] {
      OrderedTailIsFresh(level + 1, q);
      ClauseStaysUncut(level + 1, c, rest, PrintTail(level + 1, q));
    }
  }

  lemma {:induction false} TailCanonicalExactly(level: nat, p: ParsedSql, q: ParsedSql)
    requires level <= 3 && CanonicalTail(level, p) && SameUpToOrder(p, q) && Ordered(q)
    ensures CanonicalTail(level, q) <==> !TailDangles(level, p)
    decreases 3 - level
  {
    if level < 3 {
      TailCanonicalExactly(level + 1, p, q);
      TailStepCanonical(level, p, q);
    } else {
      assert CanonicalTail(4, q) && !TailDangles(4, p);
      assert PrintTail(4, q) == PrintLimits(q);
    }
  }

  /** A value with another ORDER BY, LIMIT or OFFSET is canonical exactly when the first one had no
      dangling keyword. */
  lemma CanonicalExactly(p: ParsedSql, q: ParsedSql)
    requires Canonical(p) && SameUpToOrder(p, q) && Ordered(q)
    ensures Canonical(q) <==> !Dangling(p)
  {
    TailCanonicalExactly(WHERE, p, q);
    OrderedTailIsFresh(WHERE, q);
    ClauseStaysUncut(WHERE, p.from_, PrintTail(WHERE, p), PrintTail(WHERE, q));
  }

  lemma OddEnd(s: seq<Word>, rest: seq<Word>)
    requires s != [] && s[|s| - 1].key != Number
    requires rest == [] || (|rest| == 2 && rest[0].key == Offset)
    ensures !IsLimitTail(s + rest)
  {
    assert (s + rest)[|s| - 1] == s[|s| - 1];
    if rest != [] {
      assert (s + rest)[|s|] == rest[0];
    }
    if |s + rest| == 4 {
      assert (s + rest)[2..] == [(s + rest)[2], (s + rest)[3]];
    }
  }

  /** An order in front of a LIMIT, or ending in a word that is no number, is read back whole. */
  lemma OrderUncut(q: ParsedSql)
    requires q.limit.Some? || (q.orderBy != [] ==> q.orderBy[|q.orderBy| - 1].key != Number)
    ensures Uncut(4, q.orderBy, PrintLimits(q))
  {
    var o, rest := q.orderBy, PrintLimits(q);
    forall j | 1 <= j < |o| ensures !IsLimitTail(o[j..] + rest) {
      if q.limit.Some? {
        assert rest[0] == Kw(Limit);
        FreshLimits(o[j..], rest);
      } else {
        assert (o[j..] + rest)[|o| - j - 1] == o[|o| - 1];
        OddEnd(o[j..], rest);
      }
    }
  }

  lemma CanonicalLimits(p: ParsedSql)
    requires CanonicalTail(WHERE, p)
    ensures LimitsFit(p)
  {
    assert CanonicalTail(1, p);
    assert CanonicalTail(2, p);
    assert CanonicalTail(3, p);
    assert CanonicalTail(4, p);
  }

  /** `SetLimit` on a text that parses: the new text parses to the old value with that limit exactly
      when the text has no dangling keyword and the limit is not negative. */
  lemma SetLimitExactly(ws: seq<Word>, limit: int)
    requires Parse(ws).Ok?
    ensures var p := Parse(ws).value;
      Parse(SetLimit(ws, limit)) == Ok(p.(limit := Some(limit))) <==> !Dangling(p) && 0 <= limit <= MAX_INT
  {
    var p := Parse(ws).value;
    var q := p.(limit := Some(limit));
    ParseIsCanonical(ws);
    CanonicalLimits(p);
    RoundTripExactly(q);
    if 0 <= limit <= MAX_INT {
      OrderUncut(q);
      CanonicalExactly(p, q);
    } else if Canonical(q) {
      CanonicalLimits(q);
    }
  }

  /** `SetLimit` leaves everything but the limit as it is, and a second call undoes the first. */
  lemma LastLimitWins(ws: seq<Word>, first: int, second: int)
    requires Parse(ws).Ok? && !Dangling(Parse(ws).value) && 0 <= first <= MAX_INT
    ensures SetLimit(SetLimit(ws, first), second) == SetLimit(ws, second)
  {
    SetLimitExactly(ws, first);
  }

  lemma {:induction false} OneWordDoesNotFit(level: nat, w: Word)
    requires level <= 4
    ensures !Fits(level, [w])
    decreases 4 - level
  {
    if level < 4 {
      OneWordDoesNotFit(level + 1, w);
    }
  }

  lemma PairUncut(level: nat, a: Word, b: Word)
    requires level <= 4
    ensures Uncut(level, [a, b], [])
  {
    assert [a, b][1..] + [] == [b];
    OneWordDoesNotFit(level, b);
  }

  lemma OnlyFromAndWhere(p: ParsedSql, a: Word, t: Word)
    requires p.select == [a] && (p.from_ == [t] || p.from_ == [t, Kw(Where)]) && |p.where_| in {0, 2}
    requires p.from_ == [t] || p.where_ == []
    requires p.groupBy == p.having == p.orderBy == [] && p.limit == p.offset == None
    ensures Canonical(p)
  {
    assert CanonicalTail(4, p) && CanonicalTail(3, p) && CanonicalTail(2, p) && CanonicalTail(1, p);
    assert PrintTail(4, p) == PrintTail(3, p) == PrintTail(2, p) == PrintTail(1, p) == [];
    if p.where_ != [] {
      PairUncut(1, p.where_[0], p.where_[1]);
      assert p.where_ == [p.where_[0], p.where_[1]];
    }
    PairUncut(0, t, Kw(Where));
    assert CanonicalTail(0, p);
  }

  lemma PrintWhereAndLimit(p: ParsedSql)
    requires p.groupBy == p.having == p.orderBy == []
    ensures Printed(p) == [Kw(Select)] + p.select + [Kw(From)] + p.from_
                          + (if p.where_ == [] then [] else [Kw(Where)] + p.where_) + PrintLimits(p)
  {
    assert PrintTail(4, p) == PrintTail(3, p) == PrintTail(2, p) == PrintTail(1, p) == PrintLimits(p);
  }

  /** SELECT a FROM t WHERE parses, and a limit appended to it becomes its WHERE clause. */
  lemma DanglingKeywordTakesTheLimit(a: Word, t: Word)
    ensures var ws := [Kw(Select), a, Kw(From), t, Kw(Where)];
      && Parse(ws) == Ok(NO_CLAUSES.(select := [a], from_ := [t, Kw(Where)]))
      && Parse(SetLimit(ws, 5)) == Ok(NO_CLAUSES.(select := [a], from_ := [t], where_ := [Kw(Limit), FormatInt(5)]))
  {
    var ws := [Kw(Select), a, Kw(From), t, Kw(Where)];
    var p := NO_CLAUSES.(select := [a], from_ := [t, Kw(Where)]);
    var q := NO_CLAUSES.(select := [a], from_ := [t], where_ := [Kw(Limit), FormatInt(5)]);
    PrintWhereAndLimit(p);
    assert Printed(p) == ws;
    OnlyFromAndWhere(p, a, t);
    CanonicalRoundTrips(p);
    PrintWhereAndLimit(p.(limit := Some(5)));
    PrintWhereAndLimit(q);
    assert SetLimit(ws, 5) == ws + [Kw(Limit), FormatInt(5)] == Printed(q);
    OnlyFromAndWhere(q, a, t);
    CanonicalRoundTrips(q);
  }
}
