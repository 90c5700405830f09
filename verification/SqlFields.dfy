/** The field names of a select list (sqlparser/parser.go, parseFields). */
module SqlFields {
  import opened Wrappers
  import opened Strings
  import opened SqlText

  /** The pieces of a text between its commas. */
  function Pieces(s: string): (ps: seq<string>)
    ensures |ps| >= 1
  {
    if s == "" then [""]
    else
      var ps := Pieces(s[1..]);
      if s[0] == ',' then [""] + ps else [[s[0]] + ps[0]] + ps[1..]
  }

  function Whole(s: string): seq<Word> { if s == "" then [] else [Lex(s)] }

  function Wholes(ps: seq<string>): (fs: seq<seq<Word>>)
    ensures |fs| == |ps|
  {
    seq(|ps|, i requires 0 <= i < |ps| => Whole(ps[i]))
  }

  /** The pieces of a word in front of split words: its last piece joins the first of them. */
  function Over(ps: seq<string>, fs: seq<seq<Word>>): (r: seq<seq<Word>>)
    requires |ps| >= 1 && |fs| >= 1
    ensures |r| == |ps| - 1 + |fs|
  {
    Wholes(ps[..|ps| - 1]) + [Whole(ps[|ps| - 1]) + fs[0]] + fs[1..]
  }

  /** The trimmed pieces of the words between their commas; a piece can be blank. */
  function Split(ws: seq<Word>): (fs: seq<seq<Word>>)
    ensures |fs| >= 1
  {
    if ws == [] then [[]] else Over(Pieces(ws[0].text), Split(ws[1..]))
  }

  predicate IsAs(f: seq<Word>, i: nat) { 1 <= i && i + 1 < |f| && Upper(f[i].text) == "AS" }

  /** The last AS with a word before it and a word behind it, looking back from word i. */
  function LastAs(f: seq<Word>, i: nat): (r: Option<nat>)
    ensures r.Some? ==> r.value < i && IsAs(f, r.value) && forall j :: r.value < j < i ==> !IsAs(f, j)
    ensures r.None? ==> forall j :: 0 <= j < i ==> !IsAs(f, j)
  {
    if i == 0 then None else if IsAs(f, i - 1) then Some(i - 1) else LastAs(f, i - 1)
  }

  /** The alias of a field, or the whole of it. */
  function Name(f: seq<Word>): seq<Word> {
    match LastAs(f, |f|)
    case None => f
    case Some(i) => f[i + 1..]
  }

  function Names(fs: seq<seq<Word>>): seq<seq<Word>> {
    if fs == [] then []
    else Names(fs[..|fs| - 1]) + (if fs[|fs| - 1] == [] then [] else [Name(fs[|fs| - 1])])
  }

  function Fields(select: seq<Word>): seq<seq<Word>> { Names(Split(select)) }

  /** `parseFields` */
  method ParseFields(select: seq<Word>) returns (result: seq<seq<Word>>)
    ensures result == Fields(select)
  {
    var fields := Split(select);
    result := [];
    for k := 0 to |fields|
      invariant result == Names(fields[..k])
    {
      var trimmed := fields[k];
      if trimmed != [] {
        var asIdx := LastAs(trimmed, |trimmed|);
        if asIdx.Some? {
          trimmed := trimmed[asIdx.value + 1..];
        }
        result := result + [trimmed];
      }
      assert fields[..k + 1][..k] == fields[..k];
    }
    assert fields[..|fields|] == fields;
  }

  /** A field is named by what stands behind its last AS, in any case, or by itself. */
  lemma NameIsAlias(a: seq<Word>, as_: Word, b: seq<Word>)
    requires a != [] && b != [] && EqualFold(as_.text, "AS")
    requires forall i :: 0 <= i < |b| - 1 ==> !EqualFold(b[i].text, "AS")
    ensures Name(a + [as_] + b) == b
  {
    var f := a + [as_] + b;
    UpperFolds(as_.text, "AS");
    assert IsAs(f, |a|);
    forall j | |a| < j < |f| ensures !IsAs(f, j) {
      UpperFolds(f[j].text, "AS");
      assert f[j] == b[j - |a| - 1];
    }
    assert f[|a| + 1..] == b;
  }

  lemma NameIsField(f: seq<Word>)
    requires forall i :: 1 <= i < |f| - 1 ==> !EqualFold(f[i].text, "AS")
    ensures Name(f) == f
  {
    forall i | 1 <= i < |f| - 1 ensures !IsAs(f, i) {
      UpperFolds(f[i].text, "AS");
    }
  }

  // ----- What a field is -----

  predicate NoComma(f: seq<Word>) { forall i :: 0 <= i < |f| ==> ',' !in f[i].text }

  lemma {:induction false} PiecesHaveNoComma(s: string)
    ensures forall i :: 0 <= i < |Pieces(s)| ==> ',' !in Pieces(s)[i]
  {
    if s != "" {
      PiecesHaveNoComma(s[1..]);
    }
  }

  lemma {:induction false} SplitHasNoComma(ws: seq<Word>)
    ensures forall k :: 0 <= k < |Split(ws)| ==> NoComma(Split(ws)[k])
  {
    if ws != [] {
      PiecesHaveNoComma(ws[0].text);
      SplitHasNoComma(ws[1..]);
    }
  }

  /** A field is a non-blank text without a comma and without an alias left in it. */
  predicate IsName(f: seq<Word>) { f != [] && NoComma(f) && forall i :: 0 <= i < |f| ==> !IsAs(f, i) }

  lemma NameIsName(f: seq<Word>)
    requires f != [] && NoComma(f)
    ensures IsName(Name(f))
  {
    var r := LastAs(f, |f|);
    if r.Some? {
      var g := f[r.value + 1..];
      forall i | 0 <= i < |g| ensures !IsAs(g, i) && ',' !in g[i].text {
        assert g[i] == f[r.value + 1 + i];
        assert !IsAs(f, r.value + 1 + i);
      }
    }
  }

  lemma {:induction false} NamesAreNames(fs: seq<seq<Word>>)
    requires forall k :: 0 <= k < |fs| ==> NoComma(fs[k])
    ensures forall k :: 0 <= k < |Names(fs)| ==> IsName(Names(fs)[k])
  {
    if fs != [] {
      NamesAreNames(fs[..|fs| - 1]);
      if fs[|fs| - 1] != [] {
        NameIsName(fs[|fs| - 1]);
      }
    }
  }

  lemma FieldsAreNames(select: seq<Word>)
    ensures forall k :: 0 <= k < |Fields(select)| ==> IsName(Fields(select)[k])
  {
    SplitHasNoComma(select);
    NamesAreNames(Split(select));
  }

  // ----- Writing a list and reading it back -----

  /** A field whose words are what their texts say. */
  predicate Writable(f: seq<Word>) {
    f != [] && NoComma(f) && Lexed(f) && forall i :: 0 <= i < |f| ==> f[i].text != ""
  }

  predicate AllWritable(names: seq<seq<Word>>) { forall k :: 0 <= k < |names| ==> Writable(names[k]) }

  function WithComma(f: seq<Word>): seq<Word>
    requires f != []
  {
    f[..|f| - 1] + [Lex(f[|f| - 1].text + ",")]
  }

  /** The names with a comma glued to the last word of all but the last. */
  function Listed(names: seq<seq<Word>>): seq<Word>
    requires AllWritable(names)
  {
    if names == [] then []
    else if |names| == 1 then names[0]
    else WithComma(names[0]) + Listed(names[1..])
  }

  lemma {:induction false} OnePiece(s: string)
    requires ',' !in s
    ensures Pieces(s) == [s]
  {
    if s != "" {
      OnePiece(s[1..]);
      assert [s[0]] + s[1..] == s;
    }
  }

  lemma {:induction false} CommaAddsPiece(s: string)
    ensures Pieces(s + ",") == Pieces(s) + [""]
  {
    if s == "" {
      assert s + "," == ",";
      assert Pieces(","[1..]) == [""];
    } else {
      assert (s + ",")[1..] == s[1..] + ",";
      CommaAddsPiece(s[1..]);
    }
  }

  lemma OverComma(ps: seq<string>, fs: seq<seq<Word>>)
    requires |ps| >= 1 && |fs| >= 1
    ensures Over(ps + [""], fs) == Wholes(ps) + fs
  {
    assert (ps + [""])[..|ps|] == ps;
    assert Whole("") + fs[0] == fs[0];
  }

  lemma OverNothing(ps: seq<string>)
    requires |ps| >= 1
    ensures Over(ps, [[]]) == Wholes(ps)
  {
    assert Whole(ps[|ps| - 1]) + [] == Whole(ps[|ps| - 1]);
  }

  lemma OverAppend(ps: seq<string>, f: seq<seq<Word>>, g: seq<seq<Word>>)
    requires |ps| >= 1 && |f| >= 1
    ensures Over(ps, f + g) == Over(ps, f) + g
  {
    assert (f + g)[1..] == f[1..] + g;
  }

  lemma SplitFront(w: Word, ws: seq<Word>)
    ensures Split([w] + ws) == Over(Pieces(w.text), Split(ws))
  {
    assert ([w] + ws)[1..] == ws;
  }

  lemma OverOne(s: string, fs: seq<seq<Word>>)
    requires |fs| >= 1
    ensures Over([s], fs) == [Whole(s) + fs[0]] + fs[1..]
  {
    assert [s][..0] == [];
  }

  lemma SplitWord(w: Word, ws: seq<Word>)
    requires ',' !in w.text && w.text != "" && w == Lex(w.text)
    ensures Split([w] + ws) == [[w] + Split(ws)[0]] + Split(ws)[1..]
  {
    SplitFront(w, ws);
    OnePiece(w.text);
    OverOne(w.text, Split(ws));
  }

  lemma SplitWordWithComma(w: Word, ws: seq<Word>)
    ensures Split([Lex(w.text + ",")] + ws) == Split([w]) + Split(ws)
  {
    SplitFront(Lex(w.text + ","), ws);
    CommaAddsPiece(w.text);
    OverComma(Pieces(w.text), Split(ws));
    SplitFront(w, []);
    assert [w] + [] == [w];
    OverNothing(Pieces(w.text));
  }

  /** A word in front changes the first pieces only. */
  lemma SplitUnderWord(w: Word, a: seq<Word>, b: seq<Word>, g: seq<seq<Word>>)
    requires Split(b) == Split(a) + g
    ensures Split([w] + b) == Split([w] + a) + g
  {
    SplitFront(w, a);
    SplitFront(w, b);
    OverAppend(Pieces(w.text), Split(a), g);
  }

  lemma WithCommaTail(f: seq<Word>, ws: seq<Word>)
    requires |f| > 1
    ensures WithComma(f) + ws == [f[0]] + (WithComma(f[1..]) + ws)
  {
  }

  /** A comma behind some words splits there, whatever the words. */
  lemma {:induction false} SplitAtComma(f: seq<Word>, ws: seq<Word>)
    requires f != []
    ensures Split(WithComma(f) + ws) == Split(f) + Split(ws)
  {
    if |f| == 1 {
      assert f == [f[0]];
      assert WithComma(f) == [Lex(f[0].text + ",")];
      SplitWordWithComma(f[0], ws);
    } else {
      SplitAtComma(f[1..], ws);
      WithCommaTail(f, ws);
      SplitUnderWord(f[0], f[1..], WithComma(f[1..]) + ws, Split(ws));
      assert [f[0]] + f[1..] == f;
    }
  }

  lemma {:induction false} SplitLast(f: seq<Word>)
    requires Writable(f)
    ensures Split(f) == [f]
  {
    if |f| == 1 {
      SplitWord(f[0], []);
      assert [f[0]] + [] == f;
    } else {
      SplitLast(f[1..]);
      SplitWord(f[0], f[1..]);
      assert [f[0]] + f[1..] == f;
    }
  }

  lemma {:induction false} SplitListed(names: seq<seq<Word>>)
    requires names != [] && AllWritable(names)
    ensures Split(Listed(names)) == names
  {
    SplitLast(names[0]);
    if |names| > 1 {
      SplitListed(names[1..]);
      SplitAtComma(names[0], Listed(names[1..]));
    }
  }

  lemma {:induction false} NamesOfNames(names: seq<seq<Word>>)
    requires forall k :: 0 <= k < |names| ==> IsName(names[k])
    ensures Names(names) == names
  {
    if names != [] {
      NamesOfNames(names[..|names| - 1]);
    }
  }

  /** `parseFields` reads back every list of names written with commas. */
  lemma FieldsReadBack(names: seq<seq<Word>>)
    requires names != [] && AllWritable(names) && forall k :: 0 <= k < |names| ==> IsName(names[k])
    ensures Fields(Listed(names)) == names
  {
    SplitListed(names);
    NamesOfNames(names);
  }

  /** A longer order lists the old keys, all of them and in their order, and then the new ones. */
  lemma LongerOrderKeys(old_: seq<Word>, orderBy: seq<Word>)
    ensures Split(JoinOrder(old_, orderBy)) == (if old_ == [] then [] else Split(old_)) + Split(orderBy)
  {
    if old_ != [] {
      assert JoinOrder(old_, orderBy) == WithComma(old_) + orderBy;
      SplitAtComma(old_, orderBy);
    }
  }
}
