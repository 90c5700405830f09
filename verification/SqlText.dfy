/** The SQL parser and printer (sqlparser/parser.go) over a text split into its non-blank words.
    A lazy group of the regular expression is the shortest run of words whose tail still matches;
    an optional clause is taken whenever it can be. */
module SqlText {
  import opened Wrappers
  import opened Strings

  // ----- Words -----

  /** What a word can be to the expression: one of its keywords, a number, or anything else. */
  datatype Key = Select | From | Where | Group | By | Having | Order | Limit | Offset | Number | Plain

  datatype Word = Word(key: Key, text: string)

  function Spelling(key: Key): string {
    match key
    case Select => "SELECT"
    case From => "FROM"
    case Where => "WHERE"
    case Group => "GROUP"
    case By => "BY"
    case Having => "HAVING"
    case Order => "ORDER"
    case Limit => "LIMIT"
    case Offset => "OFFSET"
    case Number => "0"
    case Plain => ""
  }

  predicate IsDigit(c: char) { '0' <= c <= '9' }

  predicate AllDigits(s: string) { s != "" && forall i :: 0 <= i < |s| ==> IsDigit(s[i]) }

  /** Keywords are recognised in any case. */
  function KeyOf(text: string): Key {
    var u := Upper(text);
    if u == "SELECT" then Select else if u == "FROM" then From else if u == "WHERE" then Where
    else if u == "GROUP" then Group else if u == "BY" then By else if u == "HAVING" then Having
    else if u == "ORDER" then Order else if u == "LIMIT" then Limit else if u == "OFFSET" then Offset
    else if AllDigits(text) then Number else Plain
  }

  /** The word with that text. */
  function Lex(text: string): Word { Word(KeyOf(text), text) }

  function Kw(key: Key): Word { Word(key, Spelling(key)) }

  predicate Lexed(ws: seq<Word>) { forall i :: 0 <= i < |ws| ==> ws[i] == Lex(ws[i].text) }

  // ----- Numbers -----

  const MAX_INT := 0x7fff_ffff_ffff_ffff

  function DigitsValue(s: string): nat
    requires forall i :: 0 <= i < |s| ==> IsDigit(s[i])
  {
    if s == "" then 0
    else
      assert IsDigit(s[|s| - 1]);
      10 * DigitsValue(s[..|s| - 1]) + (s[|s| - 1] as int - '0' as int)
  }

  /** `parseInt` on digits; scanning a number that does not fit leaves the result at 0. */
  function ParseInt(s: string): (n: int)
    ensures 0 <= n <= MAX_INT
  {
    if AllDigits(s) && DigitsValue(s) <= MAX_INT then DigitsValue(s) else 0
  }

  function Digits(n: nat): (s: string)
    ensures AllDigits(s)
  {
    if n < 10 then [('0' as int + n) as char] else Digits(n / 10) + [('0' as int + n % 10) as char]
  }

  /** `%d` */
  function FormatInt(n: int): Word {
    if n >= 0 then Word(Number, Digits(n)) else Word(Plain, "-" + Digits(-n))
  }

  lemma {:induction false} DigitsRoundTrip(n: nat)
    ensures DigitsValue(Digits(n)) == n
  {
    if n < 10 {
      assert Digits(n)[..0] == "";
    } else {
      DigitsRoundTrip(n / 10);
      assert Digits(n)[..|Digits(n)| - 1] == Digits(n / 10);
    }
  }

  /** What is no number, or too large for an int, is read as 0. */
  lemma ParseIntOverflows(s: string)
    ensures !AllDigits(s) ==> ParseInt(s) == 0
    ensures AllDigits(s) ==> ParseInt(s) == if DigitsValue(s) < 0x8000_0000_0000_0000 then DigitsValue(s) else 0
  {
  }

  /** Scanning undoes printing exactly for the values of a non-negative int. */
  lemma ParseIntUndoesFormat(n: int)
    ensures FormatInt(n).key == Number <==> n >= 0
    ensures n < 0 ==> FormatInt(n).text == "-" + FormatInt(-n).text
    ensures n >= 0 ==> (ParseInt(FormatInt(n).text) == n <==> n < 0x8000_0000_0000_0000)
  {
    if n >= 0 {
      DigitsRoundTrip(n);
    }
  }

  // ----- Parsed values -----

  /** An absent clause is the empty text, as in the source. */
  datatype ParsedSql = ParsedSql(
    select: seq<Word>, from_: seq<Word>, where_: seq<Word>, groupBy: seq<Word>, having: seq<Word>,
    orderBy: seq<Word>, limit: Option<int>, offset: Option<int>)

  // ----- Clauses -----

  /** The optional text clauses, in their order; level 4 stands for LIMIT and OFFSET. */
  const WHERE := 0
  const GROUP_BY := 1
  const HAVING := 2
  const ORDER_BY := 3

  function FirstKey(level: nat): Key
    requires level < 4
  {
    if level == 0 then Where else if level == 1 then Group else if level == 2 then Having else Order
  }

  /** The number of words in the keyword; the second word, if any, is BY. */
  function KeywordLength(level: nat): (n: nat)
    requires level < 4
    ensures 1 <= n <= 2
  {
    if level == GROUP_BY || level == ORDER_BY then 2 else 1
  }

  predicate Is(ws: seq<Word>, i: nat, key: Key) { i < |ws| && ws[i].key == key }

  predicate StartsWith(level: nat, ws: seq<Word>)
    requires level < 4
  {
    Is(ws, 0, FirstKey(level)) && (KeywordLength(level) == 2 ==> Is(ws, 1, By))
  }

  function KeywordWords(level: nat): (ws: seq<Word>)
    requires level < 4
    ensures |ws| == KeywordLength(level) && StartsWith(level, ws)
  {
    if KeywordLength(level) == 2 then [Kw(FirstKey(level)), Kw(By)] else [Kw(FirstKey(level))]
  }

  function Clause(p: ParsedSql, level: nat): seq<Word>
    requires level < 4
  {
    if level == 0 then p.where_ else if level == 1 then p.groupBy else if level == 2 then p.having else p.orderBy
  }

  function WithClause(p: ParsedSql, level: nat, words: seq<Word>): (q: ParsedSql)
    requires level < 4
    ensures Clause(q, level) == words
    ensures forall l :: 0 <= l < 4 && l != level ==> Clause(q, l) == Clause(p, l)
    ensures q.select == p.select && q.from_ == p.from_ && q.limit == p.limit && q.offset == p.offset
  {
    if level == 0 then p.(where_ := words) else if level == 1 then p.(groupBy := words)
    else if level == 2 then p.(having := words) else p.(orderBy := words)
  }

  /** The clause of that level can be taken here: its keyword and at least one word. */
  predicate Opens(level: nat, ws: seq<Word>)
    requires level < 4
  {
    StartsWith(level, ws) && |ws| > KeywordLength(level)
  }

  predicate HasNumber(ws: seq<Word>, key: Key) { Is(ws, 0, key) && Is(ws, 1, Number) }

  /** What the end of the expression, from LIMIT on, matches. */
  predicate IsLimitTail(ws: seq<Word>) {
    ws == [] || (|ws| == 2 && HasNumber(ws, Offset)) || (|ws| == 2 && HasNumber(ws, Limit))
    || (|ws| == 4 && HasNumber(ws, Limit) && HasNumber(ws[2..], Offset))
  }

  /** The expression from the clause of that level on matches exactly these words. */
  predicate Fits(level: nat, ws: seq<Word>)
    requires level <= 4
    decreases 4 - level, |ws|
  {
    if level == 4 then IsLimitTail(ws) else Opens(level, ws) || Fits(level + 1, ws)
  }

  lemma {:induction false} EmptyFits(level: nat)
    requires level <= 4
    ensures Fits(level, [])
    decreases 4 - level
  {
    if level < 4 {
      EmptyFits(level + 1);
    }
  }

  /** The shortest prefix, from k words on, whose tail fits. */
  function Cut(level: nat, ws: seq<Word>, k: nat): (n: nat)
    requires level <= 4 && k <= |ws|
    ensures k <= n <= |ws| && Fits(level, ws[n..])
    decreases |ws| - k
  {
    EmptyFits(level);
    if k == |ws| then assert ws[k..] == []; k else if Fits(level, ws[k..]) then k else Cut(level, ws, k + 1)
  }

  lemma {:induction false} CutIsShortest(level: nat, ws: seq<Word>, k: nat, j: nat)
    requires level <= 4 && k <= |ws| && k <= j < Cut(level, ws, k)
    ensures !Fits(level, ws[j..])
    decreases |ws| - k
  {
    if k < j {
      CutIsShortest(level, ws, k + 1, j);
    }
  }

  function ReadLimits(ws: seq<Word>, p: ParsedSql): ParsedSql
    requires IsLimitTail(ws)
  {
    if ws == [] then p
    else if |ws| == 4 then p.(limit := Some(ParseInt(ws[1].text)), offset := Some(ParseInt(ws[3].text)))
    else if HasNumber(ws, Limit) then p.(limit := Some(ParseInt(ws[1].text)))
    else p.(offset := Some(ParseInt(ws[1].text)))
  }

  function ReadTail(level: nat, ws: seq<Word>, p: ParsedSql): ParsedSql
    requires level <= 4 && Fits(level, ws)
    decreases 4 - level, |ws|
  {
    if level == 4 then ReadLimits(ws, p)
    else if Opens(level, ws) then
      var k := KeywordLength(level);
      var n := Cut(level + 1, ws, k + 1);
      ReadTail(level + 1, ws[n..], WithClause(p, level, ws[k..n]))
    else ReadTail(level + 1, ws, p)
  }

  /** The first FROM, from word i on, with a word after it. */
  function FindFrom(ws: seq<Word>, i: nat): (r: Option<nat>)
    ensures r.Some? ==> i <= r.value && r.value + 1 < |ws| && Is(ws, r.value, From)
    ensures r.Some? ==> forall j :: i <= j < r.value ==> !Is(ws, j, From)
    ensures r.None? ==> forall j :: i <= j && j + 1 < |ws| ==> !Is(ws, j, From)
    decreases |ws| - i
  {
    if i + 1 >= |ws| then None
    else if Is(ws, i, From) then Some(i)
    else FindFrom(ws, i + 1)
  }

  datatype ParseError = EmptySql | UnsupportedFormat

  const NO_CLAUSES := ParsedSql([], [], [], [], [], [], None, None)

  /** Everything after FROM: the FROM clause is the shortest one whose tail fits. */
  function ReadFrom(select: seq<Word>, rest: seq<Word>): ParsedSql
    requires rest != []
  {
    var n := Cut(WHERE, rest, 1);
    ReadTail(WHERE, rest[n..], NO_CLAUSES.(select := select, from_ := rest[..n]))
  }

  function Parse(ws: seq<Word>): Result<ParsedSql, ParseError> {
    if ws == [] then Err(EmptySql)
    else if !Is(ws, 0, Select) then Err(UnsupportedFormat)
    else match FindFrom(ws, 2)
      case None => Err(UnsupportedFormat)
      case Some(i) => Ok(ReadFrom(ws[1..i], ws[i + 1..]))
  }

  // ----- Printing -----

  function PrintLimits(p: ParsedSql): seq<Word> {
    (if p.limit.Some? then [Kw(Limit), FormatInt(p.limit.value)] else [])
    + (if p.offset.Some? then [Kw(Offset), FormatInt(p.offset.value)] else [])
  }

  function PrintTail(level: nat, p: ParsedSql): seq<Word>
    requires level <= 4
    decreases 4 - level, p
  {
    if level == 4 then PrintLimits(p)
    else (if Clause(p, level) == [] then [] else KeywordWords(level) + Clause(p, level)) + PrintTail(level + 1, p)
  }

  function Printed(p: ParsedSql): seq<Word> {
    [Kw(Select)] + p.select + [Kw(From)] + p.from_ + PrintTail(WHERE, p)
  }

  lemma PrintTailStep(level: nat, p: ParsedSql, sb: seq<Word>)
    requires level < 4
    ensures sb + PrintTail(level, p)
         == (if Clause(p, level) == [] then sb else sb + KeywordWords(level) + Clause(p, level))
            + PrintTail(level + 1, p)
  {
    if Clause(p, level) == [] {
      assert [] + PrintTail(level + 1, p) == PrintTail(level + 1, p);
    } else {
      assert sb + (KeywordWords(level) + Clause(p, level) + PrintTail(level + 1, p))
          == sb + KeywordWords(level) + Clause(p, level) + PrintTail(level + 1, p);
    }
  }

  method AppendClause(sb: seq<Word>, level: nat, ghost p: ParsedSql, clause: seq<Word>) returns (r: seq<Word>)
    requires level < 4 && clause == Clause(p, level)
    ensures r + PrintTail(level + 1, p) == sb + PrintTail(level, p)
  {
    PrintTailStep(level, p, sb);
    r := sb;
    if clause != [] {
      r := r + KeywordWords(level);
      r := r + clause;
    }
  }

  method AppendLimits(sb: seq<Word>, limit: Option<int>, offset: Option<int>, ghost p: ParsedSql) returns (r: seq<Word>)
    requires limit == p.limit && offset == p.offset
    ensures r == sb + PrintLimits(p)
  {
    r := sb;
    if limit.Some? {
      r := r + [Kw(Limit), FormatInt(limit.value)];
    }
    if offset.Some? {
      r := r + [Kw(Offset), FormatInt(offset.value)];
    }
  }

  /** `Rebuild`, appending to a builder. */
  method Rebuild(p: ParsedSql) returns (sb: seq<Word>)
    ensures sb == Printed(p)
  {
    sb := [Kw(Select)];
    sb := sb + p.select;
    sb := sb + [Kw(From)];
    sb := sb + p.from_;
    sb := AppendClause(sb, WHERE, p, p.where_);
    sb := AppendClause(sb, GROUP_BY, p, p.groupBy);
    sb := AppendClause(sb, HAVING, p, p.having);
    sb := AppendClause(sb, ORDER_BY, p, p.orderBy);
    sb := AppendLimits(sb, p.limit, p.offset, p);
  }

  // ----- Rewrites -----

  /** The old condition, " AND ", the added one; or the added one alone. */
  function JoinAnd(old_: seq<Word>, condition: seq<Word>): seq<Word> {
    if old_ != [] then old_ + [Lex("AND")] + condition else condition
  }

  function AddWhereCondition(ws: seq<Word>, condition: seq<Word>): seq<Word> {
    match Parse(ws)
    case Err(_) => ws
    case Ok(p) => Printed(p.(where_ := JoinAnd(p.where_, condition)))
  }

  /** The comma is glued to the last word of the existing order. */
  function JoinOrder(old_: seq<Word>, orderBy: seq<Word>): seq<Word> {
    if old_ != [] then old_[..|old_| - 1] + [Lex(old_[|old_| - 1].text + ",")] + orderBy else orderBy
  }

  function AddOrderBy(ws: seq<Word>, orderBy: seq<Word>): seq<Word> {
    match Parse(ws)
    case Err(_) => ws
    case Ok(p) => Printed(p.(orderBy := JoinOrder(p.orderBy, orderBy)))
  }

  function SetLimit(ws: seq<Word>, limit: int): seq<Word> {
    match Parse(ws)
    case Err(_) => ws
    case Ok(p) => Printed(p.(limit := Some(limit)))
  }
}
