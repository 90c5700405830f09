/** The parser against its reference: all the ways the regular expression can split a text, and the
    order in which a backtracking matcher prefers them. */
module SqlFirstMatch {
  import opened Wrappers
  import opened SqlText
  import opened SqlRoundTrip

  /** The words can be split as the clauses of `p` from that level on. */
  ghost predicate SplitsTail(level: nat, ws: seq<Word>, p: ParsedSql)
    requires level <= 4
    decreases 4 - level, |ws|
  {
    if level == 4 then IsLimitTail(ws) && ReadLimits(ws, p.(limit := None, offset := None)) == p
    else
      var k, c := KeywordLength(level), Clause(p, level);
      if c == [] then SplitsTail(level + 1, ws, p)
      else StartsWith(level, ws) && |ws| >= k + |c| && ws[k..k + |c|] == c && SplitsTail(level + 1, ws[k + |c|..], p)
  }

  ghost predicate SplitsFrom(rest: seq<Word>, p: ParsedSql) {
    p.from_ != [] && p.from_ <= rest && SplitsTail(WHERE, rest[|p.from_|..], p)
  }

  /** The text can be split as `p`: keywords in any case, the clauses word for word. */
  ghost predicate Splits(ws: seq<Word>, p: ParsedSql) {
    var i := 1 + |p.select|;
    && p.select != [] && i < |ws| && Is(ws, 0, Select) && Is(ws, i, From) && ws[1..i] == p.select
    && SplitsFrom(ws[i + 1..], p)
  }

  /** Of two splits of one text, the one tried first: at the first clause where they differ, an
      optional clause is tried before its absence and a shorter lazy group before a longer one. */
  predicate TailBefore(level: nat, p: ParsedSql, q: ParsedSql)
    requires level <= 4
    decreases 4 - level, p
  {
    level < 4 &&
    var m, n := |Clause(p, level)|, |Clause(q, level)|;
    if m == n then TailBefore(level + 1, p, q)
    else if n == 0 then true
    else if m == 0 then false
    else m < n
  }

  predicate FromBefore(p: ParsedSql, q: ParsedSql) {
    if |p.from_| != |q.from_| then |p.from_| < |q.from_| else TailBefore(WHERE, p, q)
  }

  predicate Before(p: ParsedSql, q: ParsedSql) {
    if |p.select| != |q.select| then |p.select| < |q.select| else FromBefore(p, q)
  }

  predicate SameTail(level: nat, p: ParsedSql, q: ParsedSql)
    requires level <= 4
  {
    p.limit == q.limit && p.offset == q.offset && forall l :: level <= l < 4 ==> Clause(p, l) == Clause(q, l)
  }

  lemma {:induction false} SplitsTailFits(level: nat, ws: seq<Word>, p: ParsedSql)
    requires level <= 4 && SplitsTail(level, ws, p)
    ensures Fits(level, ws)
    decreases 4 - level
  {
    if level < 4 && Clause(p, level) == [] {
      SplitsTailFits(level + 1, ws, p);
    }
  }

  lemma SplitsTaken(level: nat, ws: seq<Word>, n: nat, r: ParsedSql)
    requires level < 4 && Opens(level, ws) && KeywordLength(level) < n <= |ws|
    requires Clause(r, level) == ws[KeywordLength(level)..n] && SplitsTail(level + 1, ws[n..], r)
    ensures SplitsTail(level, ws, r)
  {
  }

  lemma {:induction false} ReadTailSplits(level: nat, ws: seq<Word>, p: ParsedSql, r: ParsedSql)
    requires level <= 4 && Fits(level, ws) && NothingReadFrom(level, p) && r == ReadTail(level, ws, p)
    ensures SplitsTail(level, ws, r)
    decreases 4 - level
  {
    if level == 4 {
    } else if Opens(level, ws) {
      var k := KeywordLength(level);
      var n := Cut(level + 1, ws, k + 1);
      var p' := WithClause(p, level, ws[k..n]);
      ReadTailOpenedKeeps(level, ws, n, p, p', r);
      ReadTailSplits(level + 1, ws[n..], p', r);
      SplitsTaken(level, ws, n, r);
    } else {
      ReadTailAbsent(level, ws, p);
      ReadTailSplits(level + 1, ws, p, r);
    }
  }

  lemma CutReaches(level: nat, ws: seq<Word>, k: nat, m: nat)
    requires level <= 4 && k <= m <= |ws| && Fits(level, ws[m..])
    ensures Cut(level, ws, k) <= m
  {
    if m < Cut(level, ws, k) {
      CutIsShortest(level, ws, k, m);
    }
  }

  /** How far the clause of a split reaches when the clause could be taken. */
  lemma SplitClauseEnd(level: nat, ws: seq<Word>, q: ParsedSql, k: nat, m: nat)
    requires level < 4 && Opens(level, ws) && SplitsTail(level, ws, q) && Clause(q, level) != []
    requires k == KeywordLength(level) && m == k + |Clause(q, level)|
    ensures m <= |ws| && ws[k..m] == Clause(q, level) && SplitsTail(level + 1, ws[m..], q)
  {
  }

  lemma SplitClauseReaches(level: nat, ws: seq<Word>, q: ParsedSql, k: nat, m: nat)
    requires level <= 4 && k <= m <= |ws| && SplitsTail(level, ws[m..], q)
    ensures Cut(level, ws, k) <= m
  {
    SplitsTailFits(level, ws[m..], q);
    CutReaches(level, ws, k, m);
  }

  lemma CompareClause(level: nat, c: seq<Word>, r: ParsedSql, q: ParsedSql)
    requires level < 4 && Clause(r, level) == c
    requires c != [] ==> |c| <= |Clause(q, level)| || Clause(q, level) == []
    requires c == [] ==> Clause(q, level) == []
    requires |c| == |Clause(q, level)| ==>
               c == Clause(q, level) && (SameTail(level + 1, r, q) || TailBefore(level + 1, r, q))
    ensures SameTail(level, r, q) || TailBefore(level, r, q)
  {
  }

  predicate SameOrBefore(level: nat, p: ParsedSql, q: ParsedSql)
    requires level <= 4
  {
    SameTail(level, p, q) || TailBefore(level, p, q)
  }

  lemma FirstWhenOpened(level: nat, ws: seq<Word>, n: nat, r: ParsedSql, q: ParsedSql)
    requires level < 4 && Opens(level, ws) && n == Cut(level + 1, ws, KeywordLength(level) + 1)
    requires Clause(r, level) == ws[KeywordLength(level)..n] && SplitsTail(level, ws, q)
    requires SplitsTail(level + 1, ws[n..], q) ==> SameOrBefore(level + 1, r, q)
    ensures SameOrBefore(level, r, q)
  {
    if Clause(q, level) != [] {
      var k := KeywordLength(level);
      var m := k + |Clause(q, level)|;
      SplitClauseEnd(level, ws, q, k, m);
      SplitClauseReaches(level + 1, ws, q, k + 1, m);
    }
    CompareClause(level, ws[KeywordLength(level)..n], r, q);
  }

  lemma SplitWhenAbsent(level: nat, ws: seq<Word>, q: ParsedSql)
    requires level < 4 && !Opens(level, ws) && SplitsTail(level, ws, q)
    ensures Clause(q, level) == [] && SplitsTail(level + 1, ws, q)
  {
  }

  lemma LimitsSame(ws: seq<Word>, p: ParsedSql, q: ParsedSql)
    requires IsLimitTail(ws) && NothingReadFrom(4, p) && SplitsTail(4, ws, q)
    ensures SameOrBefore(4, ReadLimits(ws, p), q)
  {
  }

  /** The tail read is the first split of the words in the order of preference. */
  lemma {:induction false} ReadTailFirst(level: nat, ws: seq<Word>, p: ParsedSql, q: ParsedSql, r: ParsedSql)
    requires level <= 4 && Fits(level, ws) && NothingReadFrom(level, p) && r == ReadTail(level, ws, p)
    requires SplitsTail(level, ws, q)
    ensures SameOrBefore(level, r, q)
    decreases 4 - level, 1
  {
    if level == 4 {
      LimitsSame(ws, p, q);
    } else if Opens(level, ws) {
      TakenFirst(level, ws, p, q, r);
    } else {
      ReadTailAbsent(level, ws, p);
      SplitWhenAbsent(level, ws, q);
      ReadTailFirst(level + 1, ws, p, q, r);
      CompareClause(level, [], r, q);
    }
  }

  lemma {:induction false} TakenFirst(level: nat, ws: seq<Word>, p: ParsedSql, q: ParsedSql, r: ParsedSql)
    requires level < 4 && Opens(level, ws) && NothingReadFrom(level, p) && r == ReadTail(level, ws, p)
    requires SplitsTail(level, ws, q)
    ensures SameOrBefore(level, r, q)
    decreases 4 - level, 0
  {
    var k := KeywordLength(level);
    var n := Cut(level + 1, ws, k + 1);
    var p' := WithClause(p, level, ws[k..n]);
    ReadTailOpenedKeeps(level, ws, n, p, p', r);
    if SplitsTail(level + 1, ws[n..], q) {
      ReadTailFirst(level + 1, ws[n..], p', q, r);
    }
    FirstWhenOpened(level, ws, n, r, q);
  }

  lemma SameIsEqual(p: ParsedSql, q: ParsedSql)
    requires p.select == q.select && p.from_ == q.from_ && SameTail(WHERE, p, q)
    ensures p == q
  {
    assert Clause(p, 0) == Clause(q, 0) && Clause(p, 1) == Clause(q, 1);
    assert Clause(p, 2) == Clause(q, 2) && Clause(p, 3) == Clause(q, 3);
  }

  lemma ReadFromSplits(select: seq<Word>, rest: seq<Word>)
    requires rest != []
    ensures SplitsFrom(rest, ReadFrom(select, rest))
  {
    var n := Cut(WHERE, rest, 1);
    var p0 := NO_CLAUSES.(select := select, from_ := rest[..n]);
    ReadTailSplits(WHERE, rest[n..], p0, ReadFrom(select, rest));
    ReadTailKeeps(WHERE, rest[n..], p0);
  }

  lemma ReadFromFirst(select: seq<Word>, rest: seq<Word>, q: ParsedSql)
    requires rest != [] && q.select == select && SplitsFrom(rest, q)
    ensures ReadFrom(select, rest) == q || FromBefore(ReadFrom(select, rest), q)
  {
    var n, m := Cut(WHERE, rest, 1), |q.from_|;
    var p0 := NO_CLAUSES.(select := select, from_ := rest[..n]);
    var p := ReadTail(WHERE, rest[n..], p0);
    ReadTailKeeps(WHERE, rest[n..], p0);
    SplitsTailFits(WHERE, rest[m..], q);
    CutReaches(WHERE, rest, 1, m);
    if n == m {
      ReadTailFirst(WHERE, rest[n..], p0, q, p);
      if SameTail(WHERE, p, q) {
        SameIsEqual(p, q);
      }
    }
  }

  lemma SplitsAt(ws: seq<Word>, i: nat, p: ParsedSql)
    requires 2 <= i < |ws| && Is(ws, 0, Select) && Is(ws, i, From)
    requires p.select == ws[1..i] && SplitsFrom(ws[i + 1..], p)
    ensures Splits(ws, p)
  {
  }

  lemma ParseSplits(ws: seq<Word>)
    requires Parse(ws).Ok?
    ensures Splits(ws, Parse(ws).value)
  {
    var i := FindFrom(ws, 2).value;
    ReadFromSplits(ws[1..i], ws[i + 1..]);
    ReadFromCanonical(ws[1..i], ws[i + 1..], Parse(ws).value);
    SplitsAt(ws, i, Parse(ws).value);
  }

  lemma ParseFirst(ws: seq<Word>, q: ParsedSql)
    requires Splits(ws, q)
    ensures Parse(ws).Ok? && (Parse(ws).value == q || Before(Parse(ws).value, q))
  {
    var j := 1 + |q.select|;
    assert ws[j + 1..] != [];
    assert Is(ws, j, From) && j + 1 < |ws|;
    var i := FindFrom(ws, 2).value;
    ReadFromCanonical(ws[1..i], ws[i + 1..], Parse(ws).value);
    if i == j {
      ReadFromFirst(ws[1..i], ws[i + 1..], q);
    }
  }

  /** A text parses exactly when the expression can split it, and the parse is the first split in
      the matcher's order of preference. */
  lemma ParseIsFirstMatch(ws: seq<Word>)
    ensures Parse(ws).Ok? <==> exists q :: Splits(ws, q)
    ensures Parse(ws).Ok? ==> Splits(ws, Parse(ws).value)
    ensures forall q :: Splits(ws, q) ==> Parse(ws).Ok? && (Parse(ws).value == q || Before(Parse(ws).value, q))
  {
    if Parse(ws).Ok? {
      ParseSplits(ws);
    }
    forall q | Splits(ws, q)
      ensures Parse(ws).Ok? && (Parse(ws).value == q || Before(Parse(ws).value, q))
    {
      ParseFirst(ws, q);
    }
  }
}
