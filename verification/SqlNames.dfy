/** Texts made of plain names, where nothing is quoted, opened or closed. */
module SqlNames {
  import opened Wrappers
  import Strings
  import opened SqlText
  import opened SqlRewrite
  import opened SqlTokens
  import opened SqlCondition
  import opened SqlStatements

  ghost predicate PlainNames(ws: seq<Word>) { forall i :: 0 <= i < |ws| ==> PlainName(ws[i].text) }

  /** A name that is no keyword and no connective. */
  predicate Ident(text: string) { Neutral(text) && KeyOf(text) == Plain }

  function NamesOf(ws: seq<Word>): seq<Token> {
    seq(|ws|, i requires 0 <= i < |ws| => Name(ws[i].text))
  }

  lemma PlainWord(w: Word, ws: seq<Word>)
    requires PlainName(w.text)
    ensures Tokens(None, [w] + ws) == [Name(w.text)] + Tokens(None, ws)
    ensures QuoteAfter(None, [w] + ws) == QuoteAfter(None, ws)
  {
    NameRun("", w.text, "");
    assert w.text + "" == w.text && "" + w.text == w.text;
    TokensFront(None, w, ws, [Name(w.text)], None);
  }

  lemma {:induction false} PlainTokens(ws: seq<Word>)
    requires PlainNames(ws)
    ensures Tokens(None, ws) == NamesOf(ws) && QuoteAfter(None, ws) == None
  {
    if ws != [] {
      PlainTokens(ws[1..]);
      PlainWord(ws[0], ws[1..]);
      assert ws == [ws[0]] + ws[1..];
      assert NamesOf(ws) == [Name(ws[0].text)] + NamesOf(ws[1..]);
    }
  }

  /** Plain names leave nothing open, whether headings are looked for or not. */
  lemma {:induction false} PlainStays(ts: seq<Token>)
    requires forall i :: 0 <= i < |ts| ==> ts[i].Name? && PlainName(ts[i].text)
    ensures After(START, ts) == START && Left(START, ts) == START
  {
    if ts != [] {
      assert Next(START, ts[0]) == START;
      PlainStays(ts[1..]);
    }
  }

  lemma PlainText(ws: seq<Word>)
    requires PlainNames(ws)
    ensures Tokens(None, ws) == NamesOf(ws) && Closed(ws) && Whole(ws)
  {
    PlainTokens(ws);
    PlainStays(NamesOf(ws));
  }

  lemma {:induction false} NoOrs(ts: seq<Token>)
    requires forall i :: 0 <= i < |ts| ==> ts[i].Name? && PlainName(ts[i].text) && Strings.Upper(ts[i].text) != "OR"
    ensures Ors(START, ts) == 0
  {
    if ts != [] {
      assert Next(START, ts[0]) == START;
      NoOrs(ts[1..]);
    }
  }

  lemma NoTopLevelOr(ws: seq<Word>)
    requires PlainNames(ws) && forall i :: 0 <= i < |ws| ==> Strings.Upper(ws[i].text) != "OR"
    ensures !TopLevelOr(ws)
  {
    PlainTokens(ws);
    NoOrs(NamesOf(ws));
    OrsFound(START, NamesOf(ws));
  }

  lemma {:induction false} NeutralReading(ts: seq<Token>)
    requires forall i :: 0 <= i < |ts| ==> ts[i].Name? && Neutral(ts[i].text)
    ensures Read(START, ts) == Reading(ts, [])
  {
    if ts != [] {
      NeutralReading(ts[1..]);
      NeutralRead(START, ts[0].text, ts[1..]);
      assert ts == [ts[0]] + ts[1..];
    }
  }

  lemma NeutralText(ws: seq<Word>)
    requires forall i :: 0 <= i < |ws| ==> Neutral(ws[i].text)
    ensures Flat(ws) && Tokens(None, ws) == NamesOf(ws)
  {
    PlainText(ws);
    NeutralReading(NamesOf(ws));
  }

  lemma KeywordPlain(key: Key)
    requires IsKeyword(key)
    ensures Kw(key) == Lex(Spelling(key)) && PlainName(Spelling(key)) && Strings.Upper(Spelling(key)) != "OR"
    ensures key in {From, By} ==> Neutral(Spelling(key))
  {
    SpellingFixed(key);
    KeywordToken(Kw(key));
    KeywordUpper(Kw(key));
    if key in {From, By} {
      KeywordNeutral(Kw(key));
    }
  }
}
