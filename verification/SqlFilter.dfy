/** Adding a condition or an order to a text (sqlparser/parser.go): when the new text parses back to
    the query with the condition joined to its WHERE, and which rows that query selects. */
module SqlFilter {
  import opened Wrappers
  import opened SqlText
  import opened SqlRoundTrip
  import opened SqlRewrite
  import opened SqlTokens
  import opened SqlCondition
  import opened SqlStatements
  import opened SqlClauses

  // ----- Conditions -----

  /** Nothing in the words, from word `from_` on, could start a tail of that level. */
  predicate NoTailFrom(level: nat, from_: nat, words: seq<Word>, rest: seq<Word>)
    requires level <= 4
  {
    forall j :: from_ <= j < |words| ==> !Fits(level, words[j..] + rest)
  }

  /** The condition can be put behind the clause it follows and is read back whole. */
  ghost predicate Attachable(p: ParsedSql, condition: seq<Word>) {
    var rest := PrintTail(1, p);
    if p.where_ == [] then
      condition == [] || (!(rest == [] && Dangles(WHERE, p.from_)) && NoTailFrom(1, 1, condition, rest))
    else !(rest == [] && Dangles(1, p.where_)) && NoTailFrom(1, 0, condition, rest)
  }

  lemma UncutConcat(level: nat, a: seq<Word>, b: seq<Word>, rest: seq<Word>)
    requires level <= 4 && a != []
    ensures Uncut(level, a + b, rest) <==> Uncut(level, a, b + rest) && NoTailFrom(level, 0, b, rest)
  {
    forall j | 1 <= j < |a| ensures (a + b)[j..] + rest == a[j..] + (b + rest) {
    }
    forall j | 0 <= j < |b| ensures (a + b)[|a| + j..] == b[j..] {
    }
    if Uncut(level, a + b, rest) {
      forall j | 1 <= j < |a| ensures !Fits(level, a[j..] + (b + rest)) {
        assert !Fits(level, (a + b)[j..] + rest);
      }
      forall j | 0 <= j < |b| ensures !Fits(level, b[j..] + rest) {
        assert !Fits(level, (a + b)[|a| + j..] + rest);
      }
    }
    if Uncut(level, a, b + rest) && NoTailFrom(level, 0, b, rest) {
      forall j | 1 <= j < |a + b| ensures !Fits(level, (a + b)[j..] + rest) {
        if j < |a| {
          assert !Fits(level, a[j..] + (b + rest));
        } else {
          assert (a + b)[|a| + (j - |a|)..] == b[j - |a|..];
          assert !Fits(level, b[j - |a|..] + rest);
        }
      }
    }
  }

  lemma NoTailFromAnd(condition: seq<Word>, rest: seq<Word>)
    ensures NoTailFrom(1, 0, [AND] + condition, rest) <==> NoTailFrom(1, 0, condition, rest)
  {
    var b := [AND] + condition;
    AndIsNoHeading();
    FitsNeedsClauseWord(1, b + rest);
    assert b[0..] == b;
    forall j | 0 <= j < |condition| ensures b[j + 1..] == condition[j..] {
    }
    if NoTailFrom(1, 0, b, rest) {
      forall j | 0 <= j < |condition| ensures !Fits(1, condition[j..] + rest) {
        assert !Fits(1, b[j + 1..] + rest);
      }
    }
    if NoTailFrom(1, 0, condition, rest) {
      forall j | 0 <= j < |b| ensures !Fits(1, b[j..] + rest) {
        if j > 0 {
          assert !Fits(1, condition[j - 1..] + rest);
          assert b[j - 1 + 1..] == condition[j - 1..];
        }
      }
    }
  }

  /** The joined WHERE is read back whole exactly when its two halves are. */
  lemma JoinedUncut(old_: seq<Word>, condition: seq<Word>, rest: seq<Word>)
    requires old_ != [] && Uncut(1, old_, rest)
    ensures Uncut(1, JoinAnd(old_, condition), rest)
       <==> !(rest == [] && Dangles(1, old_)) && NoTailFrom(1, 0, condition, rest)
  {
    var b := [AND] + condition;
    assert JoinAnd(old_, condition) == old_ + b;
    UncutConcat(1, old_, b, rest);
    AndIsNoHeading();
    assert (b + rest)[0] == AND;
    ClauseStaysUncut(1, old_, rest, b + rest);
    NoTailFromAnd(condition, rest);
  }

  lemma {:induction false} TailIgnoresWhere(level: nat, p: ParsedSql, words: seq<Word>)
    requires 1 <= level <= 4
    ensures PrintTail(level, p.(where_ := words)) == PrintTail(level, p)
    ensures CanonicalTail(level, p.(where_ := words)) == CanonicalTail(level, p)
    decreases 4 - level
  {
    if level < 4 {
      TailIgnoresWhere(level + 1, p, words);
    }
  }

  lemma FromBeforeWhere(p: ParsedSql, words: seq<Word>)
    requires Canonical(p) && words != []
    ensures Canonical(p.(where_ := words))
       <==> !(PrintTail(WHERE, p) == [] && Dangles(WHERE, p.from_)) && Uncut(1, words, PrintTail(1, p))
  {
    var q := p.(where_ := words);
    TailIgnoresWhere(1, p, words);
    assert CanonicalTail(1, p);
    assert PrintTail(WHERE, q)[0] == Kw(Where);
    ClauseStaysUncut(WHERE, p.from_, PrintTail(WHERE, p), PrintTail(WHERE, q));
  }

  lemma WhereCanonicalExactly(p: ParsedSql, condition: seq<Word>)
    requires Canonical(p)
    ensures Canonical(p.(where_ := JoinAnd(p.where_, condition))) <==> Attachable(p, condition)
  {
    var words, rest := JoinAnd(p.where_, condition), PrintTail(1, p);
    if words == [] {
      assert p.(where_ := words) == p;
    } else if p.where_ == [] {
      FromBeforeWhere(p, words);
      assert PrintTail(WHERE, p) == rest;
    } else {
      FromBeforeWhere(p, words);
      assert PrintTail(WHERE, p)[0] == Kw(Where);
      JoinedUncut(p.where_, condition, rest);
    }
  }

  /** `AddWhereCondition` on a text that parses: the new text parses to the query with the joined
      WHERE, and nothing else changed, exactly when the condition is attachable. */
  lemma AddWhereExactly(ws: seq<Word>, condition: seq<Word>)
    requires Parse(ws).Ok?
    ensures var p := Parse(ws).value;
      Parse(AddWhereCondition(ws, condition)) == Ok(p.(where_ := JoinAnd(p.where_, condition)))
      <==> Attachable(p, condition)
  {
    var p := Parse(ws).value;
    ParseIsCanonical(ws);
    WhereCanonicalExactly(p, condition);
    RoundTripExactly(p.(where_ := JoinAnd(p.where_, condition)));
  }

  /** A condition without clause keywords is attachable unless the clause before it dangles. */
  lemma PlainConditionAttaches(p: ParsedSql, condition: seq<Word>)
    requires NoClauseWord(condition) && condition != []
    ensures Attachable(p, condition)
       <==> !(PrintTail(1, p) == [] && if p.where_ == [] then Dangles(WHERE, p.from_) else Dangles(1, p.where_))
  {
    forall j | 0 <= j < |condition| ensures !Fits(1, condition[j..] + PrintTail(1, p)) {
      FitsNeedsClauseWord(1, condition[j..] + PrintTail(1, p));
    }
  }

  // ----- The rows selected -----

  lemma JoinedTextLexed(ws: seq<Word>, condition: seq<Word>)
    requires Lexed(ws) && Parse(ws).Ok? && Lexed(condition)
    ensures Lexed(AddWhereCondition(ws, condition))
  {
    var p := Parse(ws).value;
    var words := JoinAnd(p.where_, condition);
    var q := p.(where_ := words);
    ParseLexed(ws);
    assert Clause(p, WHERE) == p.where_;
    assert Lexed(words);
    forall l | 0 <= l < 4 ensures Lexed(Clause(q, l)) {
      assert Clause(q, l) == if l == WHERE then words else Clause(p, l);
    }
    PrintedLexed(q);
  }

  lemma JoinedIsSimple(p: ParsedSql, condition: seq<Word>)
    requires Simple(p) && Flat(condition)
    ensures Simple(p.(where_ := JoinAnd(p.where_, condition)))
  {
    var q := p.(where_ := JoinAnd(p.where_, condition));
    assert Clause(p, WHERE) == p.where_;
    JoinFlat(p.where_, condition);
    forall l | WHERE <= l < 4 ensures Flat(Clause(q, l)) {
      assert Clause(q, l) == if l == WHERE then q.where_ else Clause(p, l);
    }
  }

  /** The texts and conditions for which the parser and the database see the same WHERE. */
  ghost predicate Filterable(ws: seq<Word>, condition: seq<Word>) {
    && Lexed(ws) && Parse(ws).Ok? && Simple(Parse(ws).value) && Attachable(Parse(ws).value, condition)
    && Lexed(condition) && Flat(condition) && condition != []
  }

  /** What the database selects by the new text is what the joined condition selects. */
  lemma AddWhereChooses(ws: seq<Word>, condition: seq<Word>, v: Valuation)
    requires Filterable(ws, condition)
    ensures Chosen(v, ws) <==> Selects(v, Parse(ws).value.where_)
    ensures Chosen(v, AddWhereCondition(ws, condition)) <==> Selects(v, JoinAnd(Parse(ws).value.where_, condition))
  {
    AddWhereExactly(ws, condition);
    JoinedTextLexed(ws, condition);
    JoinedIsSimple(Parse(ws).value, condition);
    ChosenExactly(v, ws);
    ChosenExactly(v, AddWhereCondition(ws, condition));
  }

  /** The database selects by the rewritten text exactly the rows that it selected by the old one and
      that satisfy the condition. */
  lemma AddWhereSelectsBoth(ws: seq<Word>, condition: seq<Word>, v: Valuation)
    requires Filterable(ws, condition)
    requires Parse(ws).value.where_ != [] ==> !TopLevelOr(Parse(ws).value.where_) && !TopLevelOr(condition)
    ensures Chosen(v, AddWhereCondition(ws, condition)) <==> Chosen(v, ws) && Holds(v, condition)
  {
    assert Clause(Parse(ws).value, WHERE) == Parse(ws).value.where_;
    AddWhereChooses(ws, condition, v);
    JoinMeansBoth(v, Parse(ws).value.where_, condition);
  }

  ghost predicate FiltersExactly(ws: seq<Word>, condition: seq<Word>) {
    forall v: Valuation :: Chosen(v, AddWhereCondition(ws, condition)) <==> Chosen(v, ws) && Holds(v, condition)
  }

  /** Over different atoms it does so exactly when neither condition has a top-level OR. */
  lemma AddWhereFiltersExactly(ws: seq<Word>, condition: seq<Word>)
    requires Filterable(ws, condition) && Parse(ws).value.where_ != []
    requires Independent(TermsOf(Parse(ws).value.where_), TermsOf(condition))
    ensures FiltersExactly(ws, condition) <==> !TopLevelOr(Parse(ws).value.where_) && !TopLevelOr(condition)
  {
    var where_ := Parse(ws).value.where_;
    assert Clause(Parse(ws).value, WHERE) == where_;
    JoinExactly(where_, condition);
    forall v: Valuation
      ensures Chosen(v, ws) <==> Holds(v, where_)
      ensures Chosen(v, AddWhereCondition(ws, condition)) <==> Holds(v, where_ + [AND] + condition)
    {
      AddWhereChooses(ws, condition, v);
    }
    if FiltersExactly(ws, condition) {
      forall v: Valuation
        ensures Holds(v, where_ + [AND] + condition) <==> Holds(v, where_) && Holds(v, condition)
      {
        assert Chosen(v, AddWhereCondition(ws, condition)) <==> Chosen(v, ws) && Holds(v, condition);
      }
    }
    if JoinIsBoth(where_, condition) {
      forall v: Valuation
        ensures Chosen(v, AddWhereCondition(ws, condition)) <==> Chosen(v, ws) && Holds(v, condition)
      {
        assert Holds(v, where_ + [AND] + condition) <==> Holds(v, where_) && Holds(v, condition);
      }
    }
  }

  // ----- Orders -----

  /** `AddOrderBy` on a text that parses: the new text parses to the query with the longer order
      exactly when the query does not dangle and the longer order does not end like a LIMIT. */
  lemma AddOrderExactly(ws: seq<Word>, orderBy: seq<Word>)
    requires Parse(ws).Ok? && orderBy != []
    ensures var p := Parse(ws).value;
      var q := p.(orderBy := JoinOrder(p.orderBy, orderBy));
      Parse(AddOrderBy(ws, orderBy)) == Ok(q) <==> !Dangling(p) && Uncut(4, q.orderBy, PrintLimits(q))
  {
    var p := Parse(ws).value;
    var q := p.(orderBy := JoinOrder(p.orderBy, orderBy));
    ParseIsCanonical(ws);
    CanonicalLimits(p);
    RoundTripExactly(q);
    if Uncut(4, q.orderBy, PrintLimits(q)) {
      CanonicalExactly(p, q);
    }
    if Canonical(q) {
      assert CanonicalTail(1, q) && CanonicalTail(2, q) && CanonicalTail(3, q);
      assert PrintTail(4, q) == PrintLimits(q);
    }
  }
}
