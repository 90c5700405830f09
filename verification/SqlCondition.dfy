/** What a condition joined with " AND " means. A row is selected when the condition is true of it,
    so at the top level only AND and OR matter, and AND binds tighter (section 8.12 of
    ISO/IEC 9075:1992); everything between them is an atom with any truth value. */
module SqlCondition {
  import opened Wrappers
  import opened Strings
  import opened SqlText
  import opened SqlTokens

  // ----- Reading a condition token by token -----

  /** How many parentheses, brackets and CASEs deep a token stands, and whether a BETWEEN still waits for its
      AND; the depth stays negative once something was closed that was not open. */
  datatype Scan = Scan(depth: int, cases: nat, between: bool)

  const START := Scan(0, 0, false)
  const BROKEN := Scan(-1, 0, false)

  predicate AtTop(s: Scan) { s.depth == 0 && s.cases == 0 }

  predicate Spells(t: Token, word: string) { t.Name? && Upper(t.text) == word }

  datatype Role = Part | Conjunction | Disjunction

  function RoleOf(s: Scan, t: Token): Role {
    if !AtTop(s) then Part
    else if Spells(t, "OR") then Disjunction
    else if Spells(t, "AND") && !s.between then Conjunction
    else Part
  }

  function Next(s: Scan, t: Token): Scan {
    if s.depth < 0 then BROKEN
    else if t == Symbol(OPEN) || t == Symbol('[') then s.(depth := s.depth + 1)
    else if t == Symbol(CLOSE) || t == Symbol(']') then if s.depth == 0 then BROKEN else s.(depth := s.depth - 1)
    else if s.depth > 0 then s
    else if Spells(t, "CASE") then s.(cases := s.cases + 1)
    else if Spells(t, "END") then if s.cases == 0 then BROKEN else s.(cases := s.cases - 1)
    else if s.cases > 0 then s
    else if Spells(t, "BETWEEN") then if s.between then BROKEN else s.(between := true)
    else if Spells(t, "AND") then s.(between := false)
    else if Spells(t, "OR") && s.between then BROKEN
    else s
  }

  function After(s: Scan, ts: seq<Token>): Scan
    decreases |ts|
  {
    if ts == [] then s else After(Next(s, ts[0]), ts[1..])
  }

  /** Quotes, parentheses, brackets, CASEs and BETWEENs are all closed, and nothing else is. */
  predicate Closed(ws: seq<Word>) { QuoteAfter(None, ws) == None && After(START, Tokens(None, ws)) == START }

  // ----- Terms -----

  type Atom = seq<Token>
  type Term = seq<Atom>

  /** The terms between the top-level ORs, each the list of its atoms between the ANDs. */
  function Terms(s: Scan, ts: seq<Token>): (terms: seq<Term>)
    ensures |terms| >= 1 && forall i :: 0 <= i < |terms| ==> |terms[i]| >= 1
    decreases |ts|
  {
    if ts == [] then [[[]]]
    else
      var rest := Terms(Next(s, ts[0]), ts[1..]);
      match RoleOf(s, ts[0])
      case Disjunction => [[[]]] + rest
      case Conjunction => [[[]] + rest[0]] + rest[1..]
      case Part => [[[ts[0]] + rest[0][0]] + rest[0][1..]] + rest[1..]
  }

  function TermsOf(ws: seq<Word>): (terms: seq<Term>)
    ensures |terms| >= 1 && forall i :: 0 <= i < |terms| ==> |terms[i]| >= 1
  {
    Terms(START, Tokens(None, ws))
  }

  predicate OrAt(s: Scan, ts: seq<Token>, i: nat)
    requires i < |ts|
  {
    RoleOf(After(s, ts[..i]), ts[i]) == Disjunction
  }

  predicate TopLevelOr(ws: seq<Word>) {
    exists i :: 0 <= i < |Tokens(None, ws)| && OrAt(START, Tokens(None, ws), i)
  }

  function Ors(s: Scan, ts: seq<Token>): nat
    decreases |ts|
  {
    if ts == [] then 0
    else (if RoleOf(s, ts[0]) == Disjunction then 1 else 0) + Ors(Next(s, ts[0]), ts[1..])
  }

  lemma {:induction false} TermsCountOrs(s: Scan, ts: seq<Token>)
    ensures |Terms(s, ts)| == 1 + Ors(s, ts)
    decreases |ts|
  {
    if ts != [] {
      TermsCountOrs(Next(s, ts[0]), ts[1..]);
    }
  }

  lemma OrAtShift(s: Scan, ts: seq<Token>, i: nat)
    requires i + 1 < |ts|
    ensures OrAt(s, ts, i + 1) <==> OrAt(Next(s, ts[0]), ts[1..], i)
  {
    assert ts[..i + 1][1..] == ts[1..][..i];
  }

  lemma {:induction false} OrsFound(s: Scan, ts: seq<Token>)
    ensures Ors(s, ts) > 0 <==> exists i :: 0 <= i < |ts| && OrAt(s, ts, i)
    decreases |ts|
  {
    if ts != [] {
      var s', rest := Next(s, ts[0]), ts[1..];
      OrsFound(s', rest);
      assert ts[..0] == [];
      assert OrAt(s, ts, 0) <==> RoleOf(s, ts[0]) == Disjunction;
      if Ors(s', rest) > 0 {
        var i :| 0 <= i < |rest| && OrAt(s', rest, i);
        OrAtShift(s, ts, i);
        assert OrAt(s, ts, i + 1);
      }
      if i :| 0 < i < |ts| && OrAt(s, ts, i) {
        OrAtShift(s, ts, i - 1);
      }
    }
  }

  /** A condition is one term exactly when it has no top-level OR. */
  lemma OneTermExactly(ws: seq<Word>)
    ensures |TermsOf(ws)| == 1 <==> !TopLevelOr(ws)
  {
    TermsCountOrs(START, Tokens(None, ws));
    OrsFound(START, Tokens(None, ws));
  }

  // ----- Joining -----

  /** The last term of the one and the first term of the other become one term. */
  function JoinTerms(x: seq<Term>, y: seq<Term>): seq<Term>
    requires |x| >= 1 && |y| >= 1
  {
    x[..|x| - 1] + [x[|x| - 1] + y[0]] + y[1..]
  }

  lemma JoinTermsPrepend(t: Term, x: seq<Term>, y: seq<Term>)
    requires |x| >= 1 && |y| >= 1
    ensures JoinTerms([t] + x, y) == [t] + JoinTerms(x, y)
  {
    assert ([t] + x)[..|x|] == [t] + x[..|x| - 1];
  }

  lemma JoinTermsFirst(a: Term, n: nat, x: seq<Term>, y: seq<Term>)
    requires |x| >= 1 && |y| >= 1 && |x[0]| >= n
    ensures var z := JoinTerms(x, y);
      && |z[0]| >= |x[0]| && z[0][..|x[0]|] == x[0]
      && JoinTerms([a + x[0][n..]] + x[1..], y) == [a + z[0][n..]] + z[1..]
  {
    var z := JoinTerms(x, y);
    if |x| == 1 {
      assert z[0] == x[0] + y[0];
      assert a + x[0][n..] + y[0] == a + (x[0] + y[0])[n..];
    } else {
      assert z[0] == x[0];
      assert z[1..] == JoinTerms(x[1..], y);
      JoinTermsPrepend(a + x[0][n..], x[1..], y);
    }
  }

  lemma AndAtTop()
    ensures RoleOf(START, Name("AND")) == Conjunction && Next(START, Name("AND")) == START
  {
    assert Upper("AND") == "AND" && "AND"[0] == 'A';
    assert "OR"[0] == 'O' && "CASE"[0] == 'C' && "END"[0] == 'E' && "BETWEEN"[0] == 'B';
  }

  lemma TermsJoinHere(y: seq<Token>)
    ensures Terms(START, [Name("AND")] + y) == JoinTerms(Terms(START, []), Terms(START, y))
    ensures After(START, [Name("AND")] + y) == After(START, y)
  {
    AndAtTop();
    var all, ys := [Name("AND")] + y, Terms(START, y);
    assert all[1..] == y;
    assert JoinTerms([[[]]], ys) == [[[]] + ys[0]] + ys[1..];
  }

  /** What one token in front does to the terms of the rest. */
  function Prepend(role: Role, t: Token, rest: seq<Term>): seq<Term>
    requires |rest| >= 1 && |rest[0]| >= 1
  {
    match role
    case Disjunction => [[[]]] + rest
    case Conjunction => [[[]] + rest[0]] + rest[1..]
    case Part => [[[t] + rest[0][0]] + rest[0][1..]] + rest[1..]
  }

  lemma PrependJoins(role: Role, t: Token, x: seq<Term>, y: seq<Term>)
    requires |x| >= 1 && |x[0]| >= 1 && |y| >= 1 && |y[0]| >= 1
    ensures |JoinTerms(x, y)[0]| >= 1
    ensures Prepend(role, t, JoinTerms(x, y)) == JoinTerms(Prepend(role, t, x), y)
  {
    match role
    case Disjunction => JoinTermsPrepend([[]], x, y);
    case Conjunction => JoinTermsFirst([[]], 0, x, y);
    case Part => JoinTermsFirst([[t] + x[0][0]], 1, x, y);
  }

  lemma TermsFront(s: Scan, t: Token, ts: seq<Token>)
    ensures Terms(s, [t] + ts) == Prepend(RoleOf(s, t), t, Terms(Next(s, t), ts))
    ensures After(s, [t] + ts) == After(Next(s, t), ts)
  {
    assert ([t] + ts)[1..] == ts;
  }

  /** At a point where nothing is open, AND joins the terms before it with those behind it. */
  lemma {:induction false} TermsJoin(s: Scan, a: seq<Token>, y: seq<Token>)
    requires After(s, a) == START
    ensures Terms(s, a + [Name("AND")] + y) == JoinTerms(Terms(s, a), Terms(START, y))
    ensures After(s, a + [Name("AND")] + y) == After(START, y)
    decreases |a|
  {
    if a == [] {
      assert a + [Name("AND")] + y == [Name("AND")] + y;
      TermsJoinHere(y);
    } else {
      var tail := a[1..] + [Name("AND")] + y;
      TermsJoin(Next(s, a[0]), a[1..], y);
      assert a + [Name("AND")] + y == [a[0]] + tail && a == [a[0]] + a[1..];
      TermsFront(s, a[0], tail);
      TermsFront(s, a[0], a[1..]);
      PrependJoins(RoleOf(s, a[0]), a[0], Terms(Next(s, a[0]), a[1..]), Terms(START, y));
    }
  }

  /** The joined condition's terms; it is closed when the added one is. */
  lemma ConditionsJoin(old_: seq<Word>, condition: seq<Word>)
    requires Closed(old_)
    ensures TermsOf(old_ + [AND] + condition) == JoinTerms(TermsOf(old_), TermsOf(condition))
    ensures Closed(old_ + [AND] + condition) <==> Closed(condition)
  {
    JoinedTokens(old_, condition);
    TermsJoin(START, Tokens(None, old_), Tokens(None, condition));
  }

  // ----- Meaning -----

  type Valuation = Atom -> bool

  predicate TermHolds(v: Valuation, t: Term) { forall k :: 0 <= k < |t| ==> v(t[k]) }

  predicate AnyHolds(v: Valuation, ts: seq<Term>) { exists i :: 0 <= i < |ts| && TermHolds(v, ts[i]) }

  /** The condition is true of a row that gives its atoms those values. */
  predicate Holds(v: Valuation, ws: seq<Word>) { AnyHolds(v, TermsOf(ws)) }

  /** A query without a WHERE selects every row. */
  predicate Selects(v: Valuation, where_: seq<Word>) { where_ == [] || Holds(v, where_) }

  lemma TermHoldsConcat(v: Valuation, a: Term, b: Term)
    ensures TermHolds(v, a + b) <==> TermHolds(v, a) && TermHolds(v, b)
  {
    if TermHolds(v, a + b) {
      forall k | 0 <= k < |a| ensures v(a[k]) {
        assert (a + b)[k] == a[k];
      }
      forall k | 0 <= k < |b| ensures v(b[k]) {
        assert (a + b)[|a| + k] == b[k];
      }
    }
  }

  lemma AnyHoldsJoin(v: Valuation, x: seq<Term>, y: seq<Term>)
    requires |x| >= 1 && |y| >= 1
    ensures AnyHolds(v, x) && AnyHolds(v, y) ==> AnyHolds(v, JoinTerms(x, y))
    ensures |x| == 1 && |y| == 1 ==> (AnyHolds(v, JoinTerms(x, y)) <==> AnyHolds(v, x) && AnyHolds(v, y))
  {
    var z := JoinTerms(x, y);
    var n := |x| - 1;
    assert forall i :: 0 <= i < n ==> z[i] == x[i];
    assert forall i :: 1 <= i < |y| ==> z[n + i] == y[i];
    assert z[n] == x[n] + y[0];
    TermHoldsConcat(v, x[n], y[0]);
    if AnyHolds(v, x) && AnyHolds(v, y) {
      var i :| 0 <= i < |x| && TermHolds(v, x[i]);
      var j :| 0 <= j < |y| && TermHolds(v, y[j]);
      assert TermHolds(v, z[if i < n then i else n + j]);
    }
  }

  /** Every row that satisfies both conditions is selected by the joined one. */
  lemma JoinLosesNoRow(v: Valuation, old_: seq<Word>, condition: seq<Word>)
    requires Closed(old_) && Selects(v, old_) && Holds(v, condition)
    ensures Selects(v, JoinAnd(old_, condition))
  {
    if old_ != [] {
      ConditionsJoin(old_, condition);
      AnyHoldsJoin(v, TermsOf(old_), TermsOf(condition));
    }
  }

  /** Without a top-level OR on either side, exactly the rows that satisfy both are selected. */
  lemma JoinMeansBoth(v: Valuation, old_: seq<Word>, condition: seq<Word>)
    requires Closed(old_) && Closed(condition) && condition != []
    requires old_ != [] ==> !TopLevelOr(old_) && !TopLevelOr(condition)
    ensures Selects(v, JoinAnd(old_, condition)) <==> Selects(v, old_) && Holds(v, condition)
  {
    if old_ != [] {
      ConditionsJoin(old_, condition);
      OneTermExactly(old_);
      OneTermExactly(condition);
      AnyHoldsJoin(v, TermsOf(old_), TermsOf(condition));
    }
  }

  /** So conditions can be added one after the other. */
  lemma JoinStaysJoinable(old_: seq<Word>, condition: seq<Word>)
    requires Closed(old_) && Closed(condition) && !TopLevelOr(old_) && !TopLevelOr(condition)
    ensures Closed(JoinAnd(old_, condition)) && !TopLevelOr(JoinAnd(old_, condition))
  {
    if old_ != [] {
      ConditionsJoin(old_, condition);
      OneTermExactly(old_);
      OneTermExactly(condition);
      OneTermExactly(old_ + [AND] + condition);
    }
  }

  /** The two conditions have no atom in common. */
  ghost predicate Independent(x: seq<Term>, y: seq<Term>) {
    forall i, k, j, m :: 0 <= i < |x| && 0 <= k < |x[i]| && 0 <= j < |y| && 0 <= m < |y[j]| ==> x[i][k] != y[j][m]
  }

  ghost predicate JoinIsBoth(old_: seq<Word>, condition: seq<Word>) {
    forall v: Valuation :: Holds(v, old_ + [AND] + condition) <==> Holds(v, old_) && Holds(v, condition)
  }

  /** The row on which exactly the atoms of one term are true tells the conditions apart. */
  lemma OnlyTerm(t: Term, ts: seq<Term>)
    requires forall i :: 0 <= i < |ts| ==> |ts[i]| >= 1
    requires forall i, k :: 0 <= i < |ts| && 0 <= k < |ts[i]| ==> ts[i][k] !in t
    ensures TermHolds(a => a in t, t) && !AnyHolds(a => a in t, ts)
  {
    forall i | 0 <= i < |ts| ensures !TermHolds(a => a in t, ts[i]) {
      assert ts[i][0] !in t;
    }
  }

  lemma TermsTellApart(x: seq<Term>, y: seq<Term>)
    requires |x| >= 1 && |y| >= 1 && (|x| > 1 || |y| > 1) && Independent(x, y)
    requires forall i :: 0 <= i < |x| ==> |x[i]| >= 1
    requires forall i :: 0 <= i < |y| ==> |y[i]| >= 1
    ensures exists v: Valuation :: AnyHolds(v, JoinTerms(x, y)) && !(AnyHolds(v, x) && AnyHolds(v, y))
  {
    var z := JoinTerms(x, y);
    if |x| > 1 {
      OnlyTerm(x[0], y);
      assert z[0] == x[0];
      assert AnyHolds(a => a in x[0], z);
    } else {
      var t := y[|y| - 1];
      OnlyTerm(t, x);
      assert z[|z| - 1] == t;
      assert AnyHolds(a => a in t, z);
    }
  }

  /** For conditions over different atoms the joined condition means both exactly when neither has a
      top-level OR. */
  lemma JoinExactly(old_: seq<Word>, condition: seq<Word>)
    requires Closed(old_) && Closed(condition) && Independent(TermsOf(old_), TermsOf(condition))
    ensures JoinIsBoth(old_, condition) <==> !TopLevelOr(old_) && !TopLevelOr(condition)
  {
    var x, y := TermsOf(old_), TermsOf(condition);
    ConditionsJoin(old_, condition);
    OneTermExactly(old_);
    OneTermExactly(condition);
    if |x| > 1 || |y| > 1 {
      TermsTellApart(x, y);
      var v: Valuation :| AnyHolds(v, JoinTerms(x, y)) && !(AnyHolds(v, x) && AnyHolds(v, y));
      assert Holds(v, old_ + [AND] + condition);
    } else {
      forall v: Valuation ensures Holds(v, old_ + [AND] + condition) <==> Holds(v, old_) && Holds(v, condition) {
        AnyHoldsJoin(v, x, y);
      }
    }
  }

  // ----- What holds an atom together -----

  /** A token that is no connective extends the first atom. */
  lemma PartInFront(s: Scan, t: Token, ts: seq<Token>, a: Atom, more: seq<Term>)
    requires RoleOf(s, t) == Part && Terms(Next(s, t), ts) == [[a]] + more
    ensures Terms(s, [t] + ts) == [[[t] + a]] + more && After(s, [t] + ts) == After(Next(s, t), ts)
  {
    TermsFront(s, t, ts);
    var rest := [[a]] + more;
    assert rest[0][1..] == [] && rest[1..] == more;
    assert [[t] + rest[0][0]] + rest[0][1..] == [[t] + a];
  }

  /** No token here separates atoms or terms. */
  predicate NoConnective(s: Scan, ts: seq<Token>)
    decreases |ts|
  {
    ts == [] || (RoleOf(s, ts[0]) == Part && NoConnective(Next(s, ts[0]), ts[1..]))
  }

  lemma {:induction false} OneAtom(s: Scan, ts: seq<Token>)
    requires NoConnective(s, ts)
    ensures Terms(s, ts) == [[ts]]
    decreases |ts|
  {
    if ts != [] {
      OneAtom(Next(s, ts[0]), ts[1..]);
      PartInFront(s, ts[0], ts[1..], ts[1..], []);
      assert [ts[0]] + ts[1..] == ts && [[ts]] + [] == [[ts]];
    }
  }

  lemma {:induction false} NoConnectiveConcat(s: Scan, a: seq<Token>, b: seq<Token>)
    ensures NoConnective(s, a + b) <==> NoConnective(s, a) && NoConnective(After(s, a), b)
    ensures After(s, a + b) == After(After(s, a), b)
    decreases |a|
  {
    if a == [] {
      assert a + b == b;
    } else {
      assert (a + b)[1..] == a[1..] + b;
      NoConnectiveConcat(Next(s, a[0]), a[1..], b);
    }
  }

  /** Tokens that leave a state alone in which nothing separates. */
  lemma {:induction false} Unmoved(s: Scan, ts: seq<Token>)
    requires forall i :: 0 <= i < |ts| ==> Next(s, ts[i]) == s && RoleOf(s, ts[i]) == Part
    ensures NoConnective(s, ts) && After(s, ts) == s
    decreases |ts|
  {
    if ts != [] {
      Unmoved(s, ts[1..]);
    }
  }

  /** A token that opens, what it encloses, and the token that closes. */
  lemma Enclosed(first: Token, body: seq<Token>, last: Token, inside: Scan)
    requires Next(START, first) == inside && RoleOf(START, first) == Part
    requires NoConnective(inside, body) && After(inside, body) == inside
    requires Next(inside, last) == START && RoleOf(inside, last) == Part
    ensures Terms(START, [first] + body + [last]) == [[[first] + body + [last]]]
    ensures After(START, [first] + body + [last]) == START
  {
    NoConnectiveConcat(inside, body, [last]);
    NoConnectiveConcat(START, [first], body + [last]);
    assert [first] + body + [last] == [first] + (body + [last]);
    OneAtom(START, [first] + body + [last]);
  }

  predicate IsBracket(t: Token) { t in {Symbol(OPEN), Symbol(CLOSE), Symbol('['), Symbol(']')} }

  lemma GroupTokens(open: Token, close: Token)
    requires (open == Symbol(OPEN) && close == Symbol(CLOSE)) || (open == Symbol('[') && close == Symbol(']'))
    ensures Next(START, open) == Scan(1, 0, false) && RoleOf(START, open) == Part
    ensures Next(Scan(1, 0, false), close) == START && RoleOf(Scan(1, 0, false), close) == Part
  {
  }

  /** Whatever stands in parentheses or brackets is one atom, its connectives included. */
  lemma GroupIsOneAtom(open: Token, body: seq<Token>, close: Token)
    requires (open == Symbol(OPEN) && close == Symbol(CLOSE)) || (open == Symbol('[') && close == Symbol(']'))
    requires forall i :: 0 <= i < |body| ==> !IsBracket(body[i])
    ensures Terms(START, [open] + body + [close]) == [[[open] + body + [close]]]
    ensures After(START, [open] + body + [close]) == START
  {
    GroupTokens(open, close);
    Unmoved(Scan(1, 0, false), body);
    Enclosed(open, body, close, Scan(1, 0, false));
  }

  predicate IsCaseWord(t: Token) { Spells(t, "CASE") || Spells(t, "END") }

  lemma CaseWords(first: Token, last: Token)
    requires Spells(first, "CASE") && Spells(last, "END")
    ensures Next(START, first) == Scan(0, 1, false) && RoleOf(START, first) == Part
    ensures Next(Scan(0, 1, false), last) == START && RoleOf(Scan(0, 1, false), last) == Part
  {
    assert "CASE"[0] == 'C' && "END"[0] == 'E' && "OR"[0] == 'O' && "AND"[0] == 'A';
  }

  /** From CASE to END is one atom, connectives and BETWEENs included. */
  lemma CaseIsOneAtom(first: Token, body: seq<Token>, last: Token)
    requires Spells(first, "CASE") && Spells(last, "END")
    requires forall i :: 0 <= i < |body| ==> !IsBracket(body[i]) && !IsCaseWord(body[i])
    ensures Terms(START, [first] + body + [last]) == [[[first] + body + [last]]]
    ensures After(START, [first] + body + [last]) == START
  {
    CaseWords(first, last);
    Unmoved(Scan(0, 1, false), body);
    Enclosed(first, body, last, Scan(0, 1, false));
  }

  /** A token that neither opens, closes nor connects. */
  predicate IsOperand(t: Token) {
    !IsBracket(t) && !IsCaseWord(t) && !Spells(t, "BETWEEN") && !Spells(t, "AND") && !Spells(t, "OR")
  }

  lemma BetweenWords(between: Token, and_: Token)
    requires Spells(between, "BETWEEN") && Spells(and_, "AND")
    ensures Next(START, between) == Scan(0, 0, true) && RoleOf(START, between) == Part
    ensures Next(Scan(0, 0, true), and_) == START && RoleOf(Scan(0, 0, true), and_) == Part
  {
    assert "BETWEEN"[0] == 'B' && "CASE"[0] == 'C' && "END"[0] == 'E' && "OR"[0] == 'O' && "AND"[0] == 'A';
  }

  /** The AND of a BETWEEN belongs to it: x BETWEEN a AND b is one atom. */
  lemma BetweenIsOneAtom(x: seq<Token>, between: Token, a: seq<Token>, and_: Token, b: seq<Token>)
    requires Spells(between, "BETWEEN") && Spells(and_, "AND")
    requires forall i :: 0 <= i < |x| ==> IsOperand(x[i])
    requires forall i :: 0 <= i < |a| ==> IsOperand(a[i])
    requires forall i :: 0 <= i < |b| ==> IsOperand(b[i])
    ensures var ts := x + ([between] + (a + ([and_] + b)));
      Terms(START, ts) == [[ts]] && After(START, ts) == START
  {
    BetweenWords(between, and_);
    Unmoved(START, x);
    Unmoved(Scan(0, 0, true), a);
    Unmoved(START, b);
    NoConnectiveConcat(Scan(0, 0, true), [and_], b);
    NoConnectiveConcat(Scan(0, 0, true), a, [and_] + b);
    NoConnectiveConcat(START, [between], a + ([and_] + b));
    NoConnectiveConcat(START, x, [between] + (a + ([and_] + b)));
    OneAtom(START, x + ([between] + (a + ([and_] + b))));
  }

  // ----- A connective glued to a parenthesis -----

  lemma InParentheses(b: string)
    ensures var ts := [Symbol(OPEN), Name(b), Symbol(CLOSE)];
      Terms(START, ts) == [[ts]] && After(START, ts) == START
  {
    var s := Scan(1, 0, false);
    var close, tail := [Symbol(CLOSE)], [Name(b), Symbol(CLOSE)];
    assert Terms(START, []) == [[[]]] + [];
    PartInFront(s, Symbol(CLOSE), [], [], []);
    assert [Symbol(CLOSE)] + [] == close;
    PartInFront(s, Name(b), close, close, []);
    assert [Name(b)] + close == tail;
    PartInFront(START, Symbol(OPEN), tail, tail, []);
    assert [Symbol(OPEN)] + tail == [Symbol(OPEN), Name(b), Symbol(CLOSE)];
  }

  lemma OrAtTop()
    ensures RoleOf(START, Name("OR")) == Disjunction && Next(START, Name("OR")) == START
  {
    assert Upper("OR") == "OR" && "OR"[0] == 'O';
    assert "CASE"[0] == 'C' && "END"[0] == 'E' && "BETWEEN"[0] == 'B';
  }

  /** A name, an OR and what is behind it. */
  lemma NameOr(a: string, ts: seq<Token>)
    requires PlainName(a) && Upper(a) != "OR" && Upper(a) != "AND"
    ensures Terms(START, [Name(a), Name("OR")] + ts) == [[[Name(a)]]] + Terms(START, ts)
    ensures After(START, [Name(a), Name("OR")] + ts) == After(START, ts)
  {
    OrAtTop();
    TermsFront(START, Name("OR"), ts);
    PartInFront(START, Name(a), [Name("OR")] + ts, [], Terms(START, ts));
    assert [Name(a), Name("OR")] + ts == [Name(a)] + ([Name("OR")] + ts);
    assert [Name(a)] + [] == [Name(a)];
  }

  /** As in a OR(b): the OR is seen although no blank follows it, so the condition is two terms. */
  lemma GluedOrIsSeen(a: string, b: string)
    requires PlainName(a) && PlainName(b) && Upper(a) != "OR" && Upper(a) != "AND"
    ensures var ws := [Lex(a), Lex("OR" + [OPEN] + b + [CLOSE])];
      && Closed(ws) && TopLevelOr(ws)
      && TermsOf(ws) == [[[Name(a)]], [[Symbol(OPEN), Name(b), Symbol(CLOSE)]]]
  {
    var ts := [Symbol(OPEN), Name(b), Symbol(CLOSE)];
    GluedTokens(a, b, "OR" + [OPEN] + b + [CLOSE]);
    assert [Name(a), Name("OR")] + ts == [Name(a), Name("OR"), Symbol(OPEN), Name(b), Symbol(CLOSE)];
    InParentheses(b);
    NameOr(a, ts);
    OneTermExactly([Lex(a), Lex("OR" + [OPEN] + b + [CLOSE])]);
  }
}
