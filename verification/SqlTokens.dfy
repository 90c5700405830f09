/** A condition as tokens: what a word-by-word text is once quotes, symbols and names are told apart. */
module SqlTokens {
  import opened Wrappers
  import opened Strings
  import opened Sequences
  import opened SqlText

  /** A run of name characters, any other character outside quotes, and a character inside them.
      Names and numbers need a separator between them (section 5.2 of ISO/IEC 9075:1992), symbols
      and quotes do not. */
  datatype Token = Name(text: string) | Symbol(c: char) | Inside(c: char)

  const OPEN := '('
  const CLOSE := ')'

  predicate IsQuote(c: char) { c == '\'' || c == '"' || c == '`' }

  predicate IsNameChar(c: char) {
    'a' <= c <= 'z' || 'A' <= c <= 'Z' || '0' <= c <= '9' || c in {'_', '.', '$', '@', '#'} || c as int >= 128
  }

  type Quote = Option<char>

  /** The quote a character leaves open. */
  function QuoteChar(q: Quote, c: char): Quote {
    if q.Some? then if c == q.value then None else q else if IsQuote(c) then Some(c) else None
  }

  function QuoteText(q: Quote, text: string): Quote
    decreases |text|
  {
    if text == "" then q else QuoteText(QuoteChar(q, text[0]), text[1..])
  }

  function QuoteAfter(q: Quote, ws: seq<Word>): Quote
    decreases |ws|
  {
    if ws == [] then q else QuoteAfter(QuoteText(q, ws[0].text), ws[1..])
  }

  function Named(name: string): seq<Token> { if name == "" then [] else [Name(name)] }

  /** The tokens of a word, with the name its first characters may continue; the blank behind the
      word ends a name and belongs to an open quote. */
  function WordTokens(q: Quote, name: string, text: string): seq<Token>
    decreases |text|
  {
    if text == "" then if q.Some? then [Inside(' ')] else Named(name)
    else
      var c, rest := text[0], text[1..];
      if q.Some? then
        [if c == q.value then Symbol(c) else Inside(c)] + WordTokens(QuoteChar(q, c), "", rest)
      else if IsNameChar(c) then WordTokens(None, name + [c], rest)
      else Named(name) + [Symbol(c)] + WordTokens(QuoteChar(q, c), "", rest)
  }

  function Tokens(q: Quote, ws: seq<Word>): seq<Token>
    decreases |ws|
  {
    if ws == [] then [] else WordTokens(q, "", ws[0].text) + Tokens(QuoteText(q, ws[0].text), ws[1..])
  }

  lemma TokensFront(q: Quote, w: Word, ws: seq<Word>, x: seq<Token>, q': Quote)
    requires x == WordTokens(q, "", w.text) && q' == QuoteText(q, w.text)
    ensures Tokens(q, [w] + ws) == x + Tokens(q', ws) && QuoteAfter(q, [w] + ws) == QuoteAfter(q', ws)
  {
    assert ([w] + ws)[1..] == ws;
  }

  lemma {:induction false} TokensConcat(q: Quote, a: seq<Word>, b: seq<Word>)
    ensures QuoteAfter(q, a + b) == QuoteAfter(QuoteAfter(q, a), b)
    ensures Tokens(q, a + b) == Tokens(q, a) + Tokens(QuoteAfter(q, a), b)
    decreases |a|
  {
    if a == [] {
      assert a + b == b;
    } else {
      var x, q', tail := WordTokens(q, "", a[0].text), QuoteText(q, a[0].text), a[1..];
      TokensConcat(q', tail, b);
      TokensFront(q, a[0], tail, x, q');
      TokensFront(q, a[0], tail + b, x, q');
      assert a == [a[0]] + tail && a + b == [a[0]] + (tail + b);
      Regroup(x, Tokens(q', tail), Tokens(QuoteAfter(q', tail), b));
    }
  }

  const AND := Lex("AND")

  predicate AllNameChars(text: string) { forall i :: 0 <= i < |text| ==> IsNameChar(text[i]) }

  /** Name characters, glued to whatever follows them, become one name. */
  lemma {:induction false} NameRun(name: string, text: string, rest: string)
    requires AllNameChars(text)
    ensures WordTokens(None, name, text + rest) == WordTokens(None, name + text, rest)
    ensures QuoteText(None, text + rest) == QuoteText(None, rest)
    decreases |text|
  {
    if text == "" {
      assert text + rest == rest && name + text == name;
    } else {
      assert (text + rest)[1..] == text[1..] + rest;
      assert !IsQuote(text[0]);
      NameRun(name + [text[0]], text[1..], rest);
      assert name + [text[0]] + text[1..] == name + text;
    }
  }

  lemma OneName(text: string)
    requires AllNameChars(text) && text != ""
    ensures Tokens(None, [Lex(text)]) == [Name(text)] && QuoteAfter(None, [Lex(text)]) == None
  {
    NameRun("", text, "");
    assert text + "" == text && "" + text == text;
    assert [Lex(text)][1..] == [];
  }

  lemma AndIsOneToken()
    ensures Tokens(None, [AND]) == [Name("AND")] && QuoteAfter(None, [AND]) == None
  {
    assert "AND"[0] == 'A' && "AND"[1] == 'N' && "AND"[2] == 'D';
    OneName("AND");
  }

  lemma JoinedTokens(old_: seq<Word>, condition: seq<Word>)
    requires QuoteAfter(None, old_) == None
    ensures Tokens(None, old_ + [AND] + condition) == Tokens(None, old_) + [Name("AND")] + Tokens(None, condition)
    ensures QuoteAfter(None, old_ + [AND] + condition) == QuoteAfter(None, condition)
  {
    TokensConcat(None, old_ + [AND], condition);
    TokensConcat(None, old_, [AND]);
    AndIsOneToken();
  }

  // ----- A connective glued to a parenthesis -----

  predicate PlainName(text: string) {
    && text != "" && AllNameChars(text)
    && Upper(text) != "CASE" && Upper(text) != "END" && Upper(text) != "BETWEEN"
  }

  lemma OneWord(text: string)
    ensures Tokens(None, [Lex(text)]) == WordTokens(None, "", text)
    ensures QuoteAfter(None, [Lex(text)]) == QuoteText(None, text)
  {
    assert [Lex(text)][1..] == [];
  }

  /** A symbol ends the name before it. */
  lemma SymbolAfterName(name: string, c: char, rest: string)
    requires !IsNameChar(c) && !IsQuote(c) && name != ""
    ensures WordTokens(None, name, [c] + rest) == [Name(name), Symbol(c)] + WordTokens(None, "", rest)
    ensures QuoteText(None, [c] + rest) == QuoteText(None, rest)
  {
    assert ([c] + rest)[1..] == rest;
  }

  lemma ParenthesisedName(b: string)
    requires PlainName(b)
    ensures WordTokens(None, "", b + [CLOSE]) == [Name(b), Symbol(CLOSE)] && QuoteText(None, b + [CLOSE]) == None
  {
    NameRun("", b, [CLOSE]);
    assert "" + b == b && [CLOSE] + "" == [CLOSE];
    SymbolAfterName(b, CLOSE, "");
  }

  lemma GluedSpelling(b: string)
    ensures "OR" + [OPEN] + b + [CLOSE] == "OR" + ([OPEN] + (b + [CLOSE]))
  {
  }

  lemma GluedWord(b: string, w: string)
    requires PlainName(b) && w == "OR" + ([OPEN] + (b + [CLOSE]))
    ensures WordTokens(None, "", w) == [Name("OR"), Symbol(OPEN), Name(b), Symbol(CLOSE)] && QuoteText(None, w) == None
  {
    assert "OR"[0] == 'O' && "OR"[1] == 'R' && "" + "OR" == "OR";
    NameRun("", "OR", [OPEN] + (b + [CLOSE]));
    SymbolAfterName("OR", OPEN, b + [CLOSE]);
    ParenthesisedName(b);
  }

  lemma GluedTokens(a: string, b: string, w: string)
    requires PlainName(a) && PlainName(b) && w == "OR" + [OPEN] + b + [CLOSE]
    ensures Tokens(None, [Lex(a), Lex(w)]) == [Name(a), Name("OR"), Symbol(OPEN), Name(b), Symbol(CLOSE)]
    ensures QuoteAfter(None, [Lex(a), Lex(w)]) == None
  {
    GluedSpelling(b);
    GluedWord(b, w);
    OneWord(w);
    OneName(a);
    assert [Lex(a), Lex(w)] == [Lex(a)] + [Lex(w)];
    TokensConcat(None, [Lex(a)], [Lex(w)]);
  }
}
