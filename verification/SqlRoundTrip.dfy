/** What the parser means and what printing preserves: the parse is the first match of the regular
    expression in its order of preference, and printing a parsed value parses back to it exactly
    when no clause could have been cut earlier. */
module SqlRoundTrip {
  import opened Wrappers
  import opened SqlText

  // ----- Words -----

  /** The same to the expression: equal up to the spelling of keywords and numbers. */
  predicate Similar(a: seq<Word>, b: seq<Word>) {
    |a| == |b| && forall i :: 0 <= i < |a| ==> a[i].key == b[i].key
  }

  lemma {:induction false} FitsSimilar(level: nat, a: seq<Word>, b: seq<Word>)
    requires level <= 4 && Similar(a, b)
    ensures Fits(level, a) <==> Fits(level, b)
    decreases 4 - level
  {
    if level < 4 {
      FitsSimilar(level + 1, a, b);
    }
  }

  // ----- Canonical values -----

  /** No proper part of the clause, from its second word on, could start a tail of that level. */
  predicate Uncut(level: nat, clause: seq<Word>, rest: seq<Word>)
    requires level <= 4
  {
    forall j :: 1 <= j < |clause| ==> !Fits(level, clause[j..] + rest)
  }

  predicate LimitsFit(p: ParsedSql) {
    (p.limit.Some? ==> 0 <= p.limit.value <= MAX_INT) && (p.offset.Some? ==> 0 <= p.offset.value <= MAX_INT)
  }

  predicate CanonicalTail(level: nat, p: ParsedSql)
    requires level <= 4
    decreases 4 - level, p
  {
    if level == 4 then LimitsFit(p)
    else Uncut(level + 1, Clause(p, level), PrintTail(level + 1, p)) && CanonicalTail(level + 1, p)
  }

  predicate CanonicalFrom(p: ParsedSql) {
    p.from_ != [] && Uncut(WHERE, p.from_, PrintTail(WHERE, p)) && CanonicalTail(WHERE, p)
  }

  predicate Canonical(p: ParsedSql) {
    && p.select != [] && (forall i :: 1 <= i < |p.select| ==> !Is(p.select, i, From))
    && CanonicalFrom(p)
  }

  // ----- Printing, then parsing -----

  /** The keys that can start a tail of that level. */
  predicate StartsTail(level: nat, key: Key) {
    key == Limit || key == Offset || exists l :: level <= l < 4 && key == FirstKey(l)
  }

  /** A printed tail is empty or starts with the keyword of a clause of its level or later. */
  lemma {:induction false} TailHead(level: nat, p: ParsedSql)
    requires level <= 4
    ensures var t := PrintTail(level, p);
      t != [] ==> StartsTail(level, t[0].key)
    decreases 4 - level
  {
    if level < 4 {
      TailHead(level + 1, p);
      if Clause(p, level) != [] {
        assert PrintTail(level, p)[0] == KeywordWords(level)[0];
      } else {
        assert PrintTail(level, p) == PrintTail(level + 1, p);
      }
    }
  }

  lemma OpensHead(level: nat, ws: seq<Word>)
    requires level < 4
    ensures Opens(level, ws) ==> ws != [] && ws[0].key == FirstKey(level)
  {
  }

  lemma LaterTailDoesNotOpen(level: nat, p: ParsedSql)
    requires level < 4
    ensures !Opens(level, PrintTail(level + 1, p))
  {
    var t := PrintTail(level + 1, p);
    TailHead(level + 1, p);
    OpensHead(level, t);
  }

  /** What has been read so far: the clauses before the level, and nothing else. */
  predicate ReadSoFar(level: nat, q: ParsedSql, p: ParsedSql)
    requires level <= 4
  {
    && q.select == p.select && q.from_ == p.from_ && q.limit == None && q.offset == None
    && forall l :: 0 <= l < 4 ==> Clause(q, l) == if l < level then Clause(p, l) else []
  }

  lemma ReadPrintedLimits(p: ParsedSql, q: ParsedSql)
    requires LimitsFit(p) && ReadSoFar(4, q, p)
    ensures IsLimitTail(PrintLimits(p)) && ReadLimits(PrintLimits(p), q) == p
  {
    assert Clause(q, 0) == Clause(p, 0) && Clause(q, 1) == Clause(p, 1);
    assert Clause(q, 2) == Clause(p, 2) && Clause(q, 3) == Clause(p, 3);
    if p.limit.Some? {
      ParseIntUndoesFormat(p.limit.value);
    }
    if p.offset.Some? {
      ParseIntUndoesFormat(p.offset.value);
    }
    if p.limit.Some? && p.offset.Some? {
      assert PrintLimits(p)[2..] == [Kw(Offset), FormatInt(p.offset.value)];
    }
  }

  lemma CutUnique(level: nat, ws: seq<Word>, k: nat, n: nat)
    requires level <= 4 && k <= n <= |ws| && Fits(level, ws[n..])
    requires forall j :: k <= j < n ==> !Fits(level, ws[j..])
    ensures Cut(level, ws, k) == n
  {
    if n < Cut(level, ws, k) {
      CutIsShortest(level, ws, k, n);
    }
  }

  lemma PartsOf(kw: seq<Word>, clause: seq<Word>, rest: seq<Word>)
    ensures var ws := kw + clause + rest;
      && ws[|kw|..|kw| + |clause|] == clause && ws[|kw| + |clause|..] == rest
      && forall j :: |kw| <= j < |kw| + |clause| ==> ws[j..] == clause[j - |kw|..] + rest
  {
  }

  lemma CutIsWholeClause(level: nat, kw: seq<Word>, clause: seq<Word>, rest: seq<Word>)
    requires level <= 4 && clause != [] && Uncut(level, clause, rest) && Fits(level, rest)
    ensures Cut(level, kw + clause + rest, |kw| + 1) == |kw| + |clause|
  {
    var ws := kw + clause + rest;
    PartsOf(kw, clause, rest);
    forall j | |kw| + 1 <= j < |kw| + |clause| ensures !Fits(level, ws[j..]) {
      assert ws[j..] == clause[j - |kw|..] + rest;
    }
    CutUnique(level, ws, |kw| + 1, |kw| + |clause|);
  }

  /** What reading one taken clause does. */
  lemma ReadTailOpened(level: nat, ws: seq<Word>, n: nat, p: ParsedSql)
    requires level < 4 && Opens(level, ws) && n == Cut(level + 1, ws, KeywordLength(level) + 1)
    ensures Fits(level, ws) && Fits(level + 1, ws[n..])
    ensures ReadTail(level, ws, p) == ReadTail(level + 1, ws[n..], WithClause(p, level, ws[KeywordLength(level)..n]))
  {
  }

  lemma PrintedClauseOpens(level: nat, c: seq<Word>, rest: seq<Word>)
    requires level < 4 && c != []
    ensures Opens(level, KeywordWords(level) + c + rest)
  {
    var kw := KeywordWords(level);
    assert (kw + c + rest)[0] == kw[0] && (|kw| == 2 ==> (kw + c + rest)[1] == kw[1]);
  }

  lemma ReadClause(level: nat, c: seq<Word>, rest: seq<Word>, q: ParsedSql, ws: seq<Word>)
    requires level < 4 && c != [] && Uncut(level + 1, c, rest) && Fits(level + 1, rest)
    requires ws == KeywordWords(level) + c + rest
    ensures Fits(level, ws) && ReadTail(level, ws, q) == ReadTail(level + 1, rest, WithClause(q, level, c))
  {
    var kw := KeywordWords(level);
    PartsOf(kw, c, rest);
    assert Opens(level, ws) by {
      PrintedClauseOpens(level, c, rest);
    }
    assert |kw| + |c| == Cut(level + 1, ws, |kw| + 1) by {
      CutIsWholeClause(level + 1, kw, c, rest);
    }
    ReadTailOpened(level, ws, |kw| + |c|, q);
  }

  lemma ReadSoFarStep(level: nat, p: ParsedSql, q: ParsedSql)
    requires level < 4 && ReadSoFar(level, q, p)
    ensures ReadSoFar(level + 1, WithClause(q, level, Clause(p, level)), p)
    ensures Clause(p, level) == [] ==> ReadSoFar(level + 1, q, p)
  {
  }

  lemma SkipClause(level: nat, p: ParsedSql, q: ParsedSql)
    requires level < 4 && Clause(p, level) == [] && Fits(level + 1, PrintTail(level + 1, p))
    ensures Fits(level, PrintTail(level, p))
    ensures ReadTail(level, PrintTail(level, p), q) == ReadTail(level + 1, PrintTail(level + 1, p), q)
  {
    LaterTailDoesNotOpen(level, p);
    assert PrintTail(level, p) == PrintTail(level + 1, p);
  }

  lemma {:induction false} ReadPrintedTail(level: nat, p: ParsedSql, q: ParsedSql)
    requires level <= 4 && CanonicalTail(level, p) && ReadSoFar(level, q, p)
    ensures Fits(level, PrintTail(level, p)) && ReadTail(level, PrintTail(level, p), q) == p
    decreases 4 - level
  {
    if level == 4 {
      ReadPrintedLimits(p, q);
    } else {
      ReadSoFarStep(level, p, q);
      if Clause(p, level) == [] {
        ReadPrintedTail(level + 1, p, q);
        SkipClause(level, p, q);
      } else {
        ReadPrintedTail(level + 1, p, WithClause(q, level, Clause(p, level)));
        ReadClause(level, Clause(p, level), PrintTail(level + 1, p), q, PrintTail(level, p));
      }
    }
  }

  lemma PrintedShape(p: ParsedSql)
    requires p.select != []
    ensures var ws, i := Printed(p), 1 + |p.select|;
      && ws[0] == Kw(Select) && ws[i] == Kw(From) && ws[1..i] == p.select
      && ws[i + 1..] == p.from_ + PrintTail(WHERE, p)
      && forall j :: 2 <= j < i ==> ws[j] == p.select[j - 1]
  {
  }

  lemma FindPrintedFrom(p: ParsedSql)
    requires p.select != [] && p.from_ != [] && forall i :: 1 <= i < |p.select| ==> !Is(p.select, i, From)
    ensures FindFrom(Printed(p), 2) == Some(1 + |p.select|)
  {
    var ws, i := Printed(p), 1 + |p.select|;
    PrintedShape(p);
    forall j | 2 <= j < i ensures !Is(ws, j, From) {
      assert !Is(p.select, j - 1, From);
    }
    assert Is(ws, i, From);
  }

  /** A group without a keyword, at any level. */
  lemma CutPrintedGroup(level: nat, group: seq<Word>, tail: seq<Word>)
    requires level <= 4 && group != [] && Uncut(level, group, tail) && Fits(level, tail)
    ensures Cut(level, group + tail, 1) == |group|
  {
    var none: seq<Word> := [];
    assert none + group + tail == group + tail;
    CutIsWholeClause(level, none, group, tail);
  }

  lemma CutPrintedFrom(from_: seq<Word>, tail: seq<Word>)
    requires from_ != [] && Uncut(WHERE, from_, tail) && Fits(WHERE, tail)
    ensures Cut(WHERE, from_ + tail, 1) == |from_|
  {
    CutPrintedGroup(WHERE, from_, tail);
  }

  lemma ReadPrintedFrom(p: ParsedSql)
    requires CanonicalFrom(p)
    ensures ReadFrom(p.select, p.from_ + PrintTail(WHERE, p)) == p
  {
    var tail := PrintTail(WHERE, p);
    ReadPrintedTail(WHERE, p, NO_CLAUSES.(select := p.select, from_ := p.from_));
    CutPrintedFrom(p.from_, tail);
    assert (p.from_ + tail)[|p.from_|..] == tail && (p.from_ + tail)[..|p.from_|] == p.from_;
  }

  lemma CanonicalRoundTrips(p: ParsedSql)
    requires Canonical(p)
    ensures Parse(Printed(p)) == Ok(p)
  {
    PrintedShape(p);
    FindPrintedFrom(p);
    ReadPrintedFrom(p);
  }

  // ----- Parsing, then printing -----

  lemma {:induction false} ReadTailKeeps(level: nat, ws: seq<Word>, p: ParsedSql)
    requires level <= 4 && Fits(level, ws)
    ensures var q := ReadTail(level, ws, p);
      q.select == p.select && q.from_ == p.from_ && forall l :: 0 <= l < level ==> Clause(q, l) == Clause(p, l)
    decreases 4 - level
  {
    if level < 4 {
      if Opens(level, ws) {
        var k := KeywordLength(level);
        var n := Cut(level + 1, ws, k + 1);
        ReadTailKeeps(level + 1, ws[n..], WithClause(p, level, ws[k..n]));
      } else {
        ReadTailKeeps(level + 1, ws, p);
      }
    }
  }

  predicate NothingReadFrom(level: nat, p: ParsedSql)
    requires level <= 4
  {
    p.limit == None && p.offset == None && forall l :: level <= l < 4 ==> Clause(p, l) == []
  }

  lemma LimitTailSimilar(ws: seq<Word>, p: ParsedSql)
    requires IsLimitTail(ws) && NothingReadFrom(4, p)
    ensures Similar(ws, PrintLimits(ReadLimits(ws, p))) && LimitsFit(ReadLimits(ws, p))
  {
  }

  lemma SimilarConcat(a: seq<Word>, b: seq<Word>, c: seq<Word>, d: seq<Word>)
    requires Similar(a, b) && Similar(c, d)
    ensures Similar(a + c, b + d)
  {
  }

  lemma SimilarSelf(a: seq<Word>)
    ensures Similar(a, a)
  {
  }

  lemma ClauseSimilar(level: nat, ws: seq<Word>, n: nat, rest: seq<Word>)
    requires level < 4 && Opens(level, ws) && KeywordLength(level) <= n <= |ws| && Similar(ws[n..], rest)
    ensures Similar(ws, KeywordWords(level) + ws[KeywordLength(level)..n] + rest)
  {
    var kw := KeywordWords(level);
    var c := ws[|kw|..n];
    assert Similar(ws[..|kw|], kw);
    SimilarSelf(c);
    SimilarConcat(ws[..|kw|], kw, c, c);
    SimilarConcat(ws[..|kw|] + c, kw + c, ws[n..], rest);
    assert ws == ws[..|kw|] + c + ws[n..];
  }

  /** A clause taken by the shortest cut stays uncut in front of a similar tail. */
  lemma UncutSimilar(level: nat, c: seq<Word>, tail: seq<Word>, rest: seq<Word>, ws: seq<Word>)
    requires level <= 4 && Similar(tail, rest) && ws == c + tail
    requires forall j :: 1 <= j < |c| ==> !Fits(level, ws[j..])
    ensures Uncut(level, c, rest)
  {
    forall j | 1 <= j < |c| ensures !Fits(level, c[j..] + rest) {
      SimilarSelf(c[j..]);
      SimilarConcat(c[j..], c[j..], tail, rest);
      assert ws[j..] == c[j..] + tail;
      FitsSimilar(level, ws[j..], c[j..] + rest);
    }
  }

  lemma CutUncut(level: nat, ws: seq<Word>, k: nat, n: nat, rest: seq<Word>)
    requires level <= 4 && k + 1 <= |ws| && n == Cut(level, ws, k + 1) && Similar(ws[n..], rest)
    ensures Uncut(level, ws[k..n], rest)
  {
    var c, from_k := ws[k..n], ws[k..];
    assert from_k == c + ws[n..];
    forall j | 1 <= j < |c| ensures !Fits(level, from_k[j..]) {
      CutIsShortest(level, ws, k + 1, k + j);
      assert from_k[j..] == ws[k + j..];
    }
    UncutSimilar(level, c, ws[n..], rest, from_k);
  }

  lemma ClauseCanonical(level: nat, ws: seq<Word>, n: nat, q: ParsedSql)
    requires level < 4 && Opens(level, ws) && n == Cut(level + 1, ws, KeywordLength(level) + 1)
    requires Clause(q, level) == ws[KeywordLength(level)..n]
    requires Similar(ws[n..], PrintTail(level + 1, q)) && CanonicalTail(level + 1, q)
    ensures Similar(ws, PrintTail(level, q)) && CanonicalTail(level, q)
  {
    ClauseSimilar(level, ws, n, PrintTail(level + 1, q));
    CutUncut(level + 1, ws, KeywordLength(level), n, PrintTail(level + 1, q));
  }

  lemma AbsentCanonical(level: nat, ws: seq<Word>, q: ParsedSql)
    requires level < 4 && Clause(q, level) == []
    requires Similar(ws, PrintTail(level + 1, q)) && CanonicalTail(level + 1, q)
    ensures Similar(ws, PrintTail(level, q)) && CanonicalTail(level, q)
  {
    assert PrintTail(level, q) == PrintTail(level + 1, q);
  }

  lemma ReadTailOpenedKeeps(level: nat, ws: seq<Word>, n: nat, p: ParsedSql, p': ParsedSql, q: ParsedSql)
    requires level < 4 && Opens(level, ws) && n == Cut(level + 1, ws, KeywordLength(level) + 1)
    requires NothingReadFrom(level, p) && p' == WithClause(p, level, ws[KeywordLength(level)..n])
    requires q == ReadTail(level, ws, p)
    ensures Fits(level + 1, ws[n..]) && q == ReadTail(level + 1, ws[n..], p')
    ensures Clause(q, level) == ws[KeywordLength(level)..n] && NothingReadFrom(level + 1, p')
  {
    ReadTailOpened(level, ws, n, p);
    ReadTailKeeps(level + 1, ws[n..], p');
  }

  lemma ReadTailAbsent(level: nat, ws: seq<Word>, p: ParsedSql)
    requires level < 4 && !Opens(level, ws) && Fits(level, ws) && NothingReadFrom(level, p)
    ensures Fits(level + 1, ws) && NothingReadFrom(level + 1, p)
    ensures ReadTail(level, ws, p) == ReadTail(level + 1, ws, p) && Clause(ReadTail(level, ws, p), level) == []
  {
    ReadTailKeeps(level + 1, ws, p);
  }

  /** What a tail is read as prints, up to spelling, as the words it was read from, and no clause of
      it could have been cut earlier. */
  lemma {:induction false} ReadTailCanonical(level: nat, ws: seq<Word>, p: ParsedSql, q: ParsedSql)
    requires level <= 4 && Fits(level, ws) && NothingReadFrom(level, p) && q == ReadTail(level, ws, p)
    ensures Similar(ws, PrintTail(level, q)) && CanonicalTail(level, q)
    decreases 4 - level, 1
  {
    if level == 4 {
      LimitTailSimilar(ws, p);
    } else if Opens(level, ws) {
      TakenCanonical(level, ws, p, q);
    } else {
      ReadTailAbsent(level, ws, p);
      ReadTailCanonical(level + 1, ws, p, q);
      AbsentCanonical(level, ws, q);
    }
  }

  lemma {:induction false} TakenCanonical(level: nat, ws: seq<Word>, p: ParsedSql, q: ParsedSql)
    requires level < 4 && Opens(level, ws) && NothingReadFrom(level, p) && q == ReadTail(level, ws, p)
    ensures Similar(ws, PrintTail(level, q)) && CanonicalTail(level, q)
    decreases 4 - level, 0
  {
    var k := KeywordLength(level);
    var n := Cut(level + 1, ws, k + 1);
    var p' := WithClause(p, level, ws[k..n]);
    ReadTailOpenedKeeps(level, ws, n, p, p', q);
    ReadTailCanonical(level + 1, ws[n..], p', q);
    ClauseCanonical(level, ws, n, q);
  }

  lemma ReadFromParts(select: seq<Word>, rest: seq<Word>, n: nat, p: ParsedSql)
    requires rest != [] && n == Cut(WHERE, rest, 1) && p == ReadFrom(select, rest)
    ensures p.select == select && p.from_ == rest[..n]
    ensures Similar(rest[n..], PrintTail(WHERE, p)) && CanonicalTail(WHERE, p)
  {
    var p0 := NO_CLAUSES.(select := select, from_ := rest[..n]);
    ReadTailCanonical(WHERE, rest[n..], p0, p);
    ReadTailKeeps(WHERE, rest[n..], p0);
  }

  lemma CutFromUncut(rest: seq<Word>, n: nat, tail: seq<Word>)
    requires rest != [] && n == Cut(WHERE, rest, 1) && Similar(rest[n..], tail)
    ensures Uncut(WHERE, rest[..n], tail)
  {
    forall j | 1 <= j < n ensures !Fits(WHERE, rest[j..]) {
      CutIsShortest(WHERE, rest, 1, j);
    }
    UncutSimilar(WHERE, rest[..n], rest[n..], tail, rest);
  }

  lemma ReadFromCanonical(select: seq<Word>, rest: seq<Word>, p: ParsedSql)
    requires rest != [] && p == ReadFrom(select, rest)
    ensures p.select == select && CanonicalFrom(p)
  {
    var n := Cut(WHERE, rest, 1);
    ReadFromParts(select, rest, n, p);
    CutFromUncut(rest, n, PrintTail(WHERE, p));
  }

  lemma ParseParts(ws: seq<Word>, i: nat)
    requires Parse(ws).Ok? && FindFrom(ws, 2) == Some(i)
    ensures Parse(ws).value == ReadFrom(ws[1..i], ws[i + 1..])
    ensures Parse(ws).value.select == ws[1..i] && CanonicalFrom(Parse(ws).value)
  {
    ReadFromCanonical(ws[1..i], ws[i + 1..], Parse(ws).value);
  }

  lemma SelectHasNoFrom(ws: seq<Word>, i: nat)
    requires FindFrom(ws, 2) == Some(i)
    ensures forall j :: 1 <= j < |ws[1..i]| ==> !Is(ws[1..i], j, From)
  {
    forall j | 1 <= j < |ws[1..i]| ensures !Is(ws[1..i], j, From) {
      assert !Is(ws, j + 1, From);
    }
  }

  lemma ParseIsCanonical(ws: seq<Word>)
    requires Parse(ws).Ok?
    ensures Canonical(Parse(ws).value)
  {
    var i := FindFrom(ws, 2).value;
    ParseParts(ws, i);
    SelectHasNoFrom(ws, i);
  }

  /** Printing a value and parsing it gives it back exactly when it is canonical. */
  lemma RoundTripExactly(p: ParsedSql)
    ensures Parse(Printed(p)) == Ok(p) <==> Canonical(p)
  {
    if Canonical(p) {
      CanonicalRoundTrips(p);
    }
    if Parse(Printed(p)) == Ok(p) {
      ParseIsCanonical(Printed(p));
    }
  }

  /** Parsing is stable under printing, for every SQL that parses. */
  lemma StableUnderPrinting(ws: seq<Word>)
    requires Parse(ws).Ok?
    ensures Parse(Printed(Parse(ws).value)) == Parse(ws)
  {
    ParseIsCanonical(ws);
    CanonicalRoundTrips(Parse(ws).value);
  }

  /** The words that can start an optional part of the expression. */
  predicate IsClauseWord(w: Word) { StartsTail(WHERE, w.key) }

  lemma {:induction false} FitsNeedsStart(level: nat, ws: seq<Word>)
    requires level <= 4 && ws != [] && !StartsTail(level, ws[0].key)
    ensures !Fits(level, ws)
    decreases 4 - level
  {
    if level < 4 {
      FitsNeedsStart(level + 1, ws);
      OpensHead(level, ws);
    }
  }

  lemma FitsNeedsClauseWord(level: nat, ws: seq<Word>)
    requires level <= 4 && ws != [] && !IsClauseWord(ws[0])
    ensures !Fits(level, ws)
  {
    FitsNeedsStart(level, ws);
  }

  predicate NoClauseWord(c: seq<Word>) { forall i :: 0 <= i < |c| ==> !IsClauseWord(c[i]) }

  lemma NoClauseWordUncut(level: nat, c: seq<Word>, rest: seq<Word>)
    requires level <= 4 && NoClauseWord(c)
    ensures Uncut(level, c, rest)
  {
    forall j | 1 <= j < |c| ensures !Fits(level, c[j..] + rest) {
      FitsNeedsClauseWord(level, c[j..] + rest);
    }
  }

  /** Any value whose clauses contain no clause keyword is given back by printing and parsing. */
  lemma KeywordFreeRoundTrips(p: ParsedSql)
    requires p.select != [] && p.from_ != [] && LimitsFit(p)
    requires forall i :: 0 <= i < |p.select| ==> p.select[i].key != From
    requires NoClauseWord(p.from_) && forall l :: 0 <= l < 4 ==> NoClauseWord(Clause(p, l))
    ensures Parse(Printed(p)) == Ok(p)
  {
    NoClauseWordUncut(WHERE, p.from_, PrintTail(WHERE, p));
    NoClauseWordUncut(1, Clause(p, 0), PrintTail(1, p));
    NoClauseWordUncut(2, Clause(p, 1), PrintTail(2, p));
    NoClauseWordUncut(3, Clause(p, 2), PrintTail(3, p));
    NoClauseWordUncut(4, Clause(p, 3), PrintTail(4, p));
    assert CanonicalTail(4, p) && CanonicalTail(3, p) && CanonicalTail(2, p) && CanonicalTail(1, p);
    CanonicalRoundTrips(p);
  }
}
