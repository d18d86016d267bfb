/**
 How patterns read, said in literal characters: which names a directive can have, what the
 default pattern means, and what becomes of an unknown or an unfinished directive
 (code/common/log.cpp:248-383,499-501).
 */
module PatternReading {
  import opened PatternParser

  const LOWER := "abcdefghijklmnopqrstuvwxyz"
  const UPPER := "ABCDEFGHIJKLMNOPQRSTUVWXYZ"
  const LETTERS := "abcdefghijklmnopqrstuvwxyzABCDEFGHIJKLMNOPQRSTUVWXYZ"

  lemma LettersAre(c: char)
    ensures NameChar(c) <==> c in LETTERS || c == '}'
  {
    LowerAre(c);
    UpperAre(c);
    LettersSplit();
    hide LETTERS, LOWER, UPPER;
  }

  lemma LowerAre(c: char)
    ensures c in LOWER <==> 'a' <= c <= 'z'
  {
  }

  lemma UpperAre(c: char)
    ensures c in UPPER <==> 'A' <= c <= 'Z'
  {
  }

  lemma LettersSplit()
    ensures LETTERS == LOWER + UPPER
  {
  }

  // ---------- one directive at a time ----------

  // A bare directive has the longest name of letters (a stray closing brace counts as one),
  // and what follows is read as if it stood alone.
  lemma BareReads(name: string, rest: string)
    requires forall j :: 0 <= j < |name| ==> name[j] in LETTERS || name[j] == '}'
    requires rest != "" ==> rest[0] !in LETTERS && rest[0] != '{' && rest[0] != '}' && (name == "" ==> rest[0] != '%')
    ensures Pieces("%" + name + rest) == [Directive(name, "", false)] + Pieces(rest)
  {
    forall c: char
      ensures NameChar(c) <==> c in LETTERS || c == '}'
    {
      LettersAre(c);
    }
    hide LETTERS, NameChar;
    OneDirective(Directive(name, "", false), rest);
    assert "%" + name + "" == "%" + name;
  }

  // A format is everything up to the next closing brace.
  lemma BracedReads(name: string, fmt: string, rest: string)
    requires forall j :: 0 <= j < |name| ==> name[j] in LETTERS || name[j] == '}'
    requires '}' !in fmt
    ensures Pieces("%" + name + "{" + fmt + "}" + rest) == [Directive(name, fmt, true)] + Pieces(rest)
  {
    forall c: char
      ensures NameChar(c) <==> c in LETTERS || c == '}'
    {
      LettersAre(c);
    }
    hide LETTERS, NameChar;
    OneDirective(Directive(name, fmt, true), rest);
  }

  lemma OneDirective(d: Piece, rest: string)
    requires d.Directive? && forall j :: 0 <= j < |d.name| ==> NameChar(d.name[j])
    requires if d.braced then '}' !in d.fmt
             else d.fmt == "" &&
                  (rest != "" ==> !NameChar(rest[0]) && rest[0] != '{' && (d.name == "" ==> rest[0] != '%'))
    ensures Pieces(RenderPiece(d) + rest) == [d] + Pieces(rest)
  {
    var head := RenderPiece(d);
    var p := head + rest;
    assert p[0..] == p;
    assert !d.braced ==> head == "%" + d.name;
    assert !d.braced && rest != "" ==> p[|head|] == rest[0];
    SpelledDirective(p, 0, d.name, d.fmt, d.braced);
    assert 1 < |head| ==> p[1] == head[1] == if d.name != "" then d.name[0] else '{';
    assert TurnAt(p, 0, "") == Turn([d], |head|, "") by {
      assert Flush("") + [d] == [d];
      hide DirectiveAt, RenderPiece;
    }
    hide *;
    ScanStep(p, 0, "");
    ScanShift(head, rest, 0, "");
    assert Pieces(p) == Scan(p, 0, "") && Pieces(rest) == Scan(rest, 0, "") by { PiecesAre(p); PiecesAre(rest); }
  }

  lemma PiecesAre(p: string)
    ensures Pieces(p) == Scan(p, 0, "")
  {
  }

  // Text is kept as it is up to the end or the next directive; a percent sign can only stand
  // at its end, before the directive's own.
  lemma TextReads(s: string, rest: string)
    requires s != "" && forall j, k :: 0 <= j < k < |s| && s[j] == '%' ==> s[k] == '%'
    requires if rest == "" then '%' !in s else Pieces(rest) != [] && Pieces(rest)[0].Directive?
    ensures Pieces(s + rest) == [Text(s)] + Pieces(rest)
  {
    var p := s + rest;
    PiecesAre(p);
    PiecesAre(rest);
    hide Pieces, Scan, TurnAt;
    if rest != "" {
      PendingFirst(rest, s);
      assert p[|s|] == rest[0];
    }
    assert p[0..0 + |s|] == s;
    PrintedText(p, 0, "", s);
    ScanShift(s, rest, 0, s);
    assert "" + s == s;
    if rest == "" {
      ScanEnd(rest, s);
      ScanEnd(rest, "");
    }
  }

  // Text pending before a directive comes out in front of it.
  lemma PendingFirst(q: string, s: string)
    requires s != "" && Scan(q, 0, "") != [] && Scan(q, 0, "")[0].Directive?
    ensures q != "" && q[0] == '%' && Scan(q, 0, s) == [Text(s)] + Scan(q, 0, "")
  {
    BareBeforeDirective(q, 0);
    var t := TurnAt(q, 0, "");
    ScanStep(q, 0, "");
    ScanStep(q, 0, s);
    hide Scan;
    if |q| > 1 && q[1] == '%' {
      assert t == Turn([], 1, "%");
      assert [] + Scan(q, 1, "%") == Scan(q, 1, "%");
      ScanKeepsPending(q, 1, "%");
    } else {
      assert DirectiveAt(q, 0).Complete?;
      hide DirectiveAt;
      var d := DirectiveAt(q, 0).piece;
      assert t.out == [d] && TurnAt(q, 0, s) == Turn([Text(s), d], t.next, "");
      assert [Text(s), d] == [Text(s)] + [d];
    }
  }

  // ---------- the default pattern ----------

  const DEFAULT_PATTERN := "%d{%Y-%m-%d %H:%M:%S}%T%t%T%F%T[%p]%T[%c]%T%f:%l%T%m%n"

  function Bare(name: string): Piece {
    Directive(name, "", false)
  }

  lemma LetterReads(c: char, rest: string)
    requires 'a' <= c <= 'z' || 'A' <= c <= 'Z'
    requires rest != "" ==> rest[0] in ['%', '[', ']', ':']
    ensures Pieces(['%', c] + rest) == [Bare([c])] + Pieces(rest)
  {
    var name := [c];
    assert name[0] == c;
    assert "%" + name == ['%', c];
    assert "%" + name + "" == "%" + name;
    OneDirective(Bare(name), rest);
  }

  lemma MarkReads(c: char, rest: string)
    requires c in ['[', ']', ':'] && Pieces(rest) != [] && Pieces(rest)[0].Directive?
    ensures Pieces([c] + rest) == [Text([c])] + Pieces(rest)
  {
    TextReads([c], rest);
  }

  lemma PlaceReads()
    ensures Pieces("%T%f:%l%T%m%n") ==
            [Bare("T"), Bare("f"), Text(":"), Bare("l"), Bare("T"), Bare("m"), Bare("n")]
  {
    hide Pieces;
    PiecesAre("");
    ScanEnd("", "");
    LetterReads('n', "");
    assert ['%', 'n'] + "" == "%n";
    LetterReads('m', "%n");
    assert ['%', 'm'] + "%n" == "%m%n";
    LetterReads('T', "%m%n");
    assert ['%', 'T'] + "%m%n" == "%T%m%n";
    LetterReads('l', "%T%m%n");
    assert ['%', 'l'] + "%T%m%n" == "%l%T%m%n";
    MarkReads(':', "%l%T%m%n");
    assert [':'] + "%l%T%m%n" == ":%l%T%m%n";
    LetterReads('f', ":%l%T%m%n");
    assert ['%', 'f'] + ":%l%T%m%n" == "%f:%l%T%m%n";
    LetterReads('T', "%f:%l%T%m%n");
    assert ['%', 'T'] + "%f:%l%T%m%n" == "%T%f:%l%T%m%n";
  }

  lemma BracketReads(c: char, rest: string)
    requires 'a' <= c <= 'z' || 'A' <= c <= 'Z'
    requires Pieces(rest) != [] && Pieces(rest)[0].Directive?
    ensures Pieces("%T[%" + [c] + "]" + rest) == [Bare("T"), Text("["), Bare([c]), Text("]")] + Pieces(rest)
    ensures "%T[%" + [c] + "]" + rest != "" && ("%T[%" + [c] + "]" + rest)[0] == '%'
  {
    hide Pieces;
    MarkReads(']', rest);
    LetterReads(c, [']'] + rest);
    var r1 := ['%', c] + ([']'] + rest);
    MarkReads('[', r1);
    LetterReads('T', ['['] + r1);
    assert ['%', 'T'] + (['['] + r1) == "%T[%" + [c] + "]" + rest;
  }

  lemma ThreadReads(rest: string)
    requires Pieces(rest) != [] && Pieces(rest)[0].Directive? && rest != "" && rest[0] == '%'
    ensures Pieces("%T%t%T%F" + rest) == [Bare("T"), Bare("t"), Bare("T"), Bare("F")] + Pieces(rest)
  {
    hide Pieces;
    LetterReads('F', rest);
    assert ['%', 'F'] == "%F";
    LetterReads('T', "%F" + rest);
    assert ['%', 'T'] + ("%F" + rest) == "%T%F" + rest;
    LetterReads('t', "%T%F" + rest);
    assert ['%', 't'] + ("%T%F" + rest) == "%t%T%F" + rest;
    LetterReads('T', "%t%T%F" + rest);
    assert ['%', 'T'] + ("%t%T%F" + rest) == "%T%t%T%F" + rest;
  }

  // Date, thread, fiber, level, logger, place and message, with tabs between.
  lemma DefaultReads()
    ensures Pieces(DEFAULT_PATTERN) ==
            [Directive("d", "%Y-%m-%d %H:%M:%S", true),
             Bare("T"), Bare("t"), Bare("T"), Bare("F"),
             Bare("T"), Text("["), Bare("p"), Text("]"),
             Bare("T"), Text("["), Bare("c"), Text("]"),
             Bare("T"), Bare("f"), Text(":"), Bare("l"), Bare("T"), Bare("m"), Bare("n")]
  {
    hide Pieces, DEFAULT_PATTERN, LETTERS;
    BracketsRead();
    var level := "%T[%" + "p" + "]" + ("%T[%" + "c" + "]" + "%T%f:%l%T%m%n");
    ThreadReads(level);
    LettersAre('d');
    BracedReads("d", "%Y-%m-%d %H:%M:%S", "%T%t%T%F" + level);
    DefaultSpelled();
  }

  lemma BracketsRead()
    ensures var level := "%T[%" + "p" + "]" + ("%T[%" + "c" + "]" + "%T%f:%l%T%m%n");
            && level != "" && level[0] == '%'
            && Pieces(level) ==
               [Bare("T"), Text("["), Bare("p"), Text("]"), Bare("T"), Text("["), Bare("c"), Text("]"),
                Bare("T"), Bare("f"), Text(":"), Bare("l"), Bare("T"), Bare("m"), Bare("n")]
  {
    hide Pieces;
    PlaceReads();
    BracketReads('c', "%T%f:%l%T%m%n");
    BracketReads('p', "%T[%" + "c" + "]" + "%T%f:%l%T%m%n");
  }

  lemma DefaultSpelled()
    ensures DEFAULT_PATTERN ==
            "%" + "d" + "{" + "%Y-%m-%d %H:%M:%S" + "}" +
            ("%T%t%T%F" + ("%T[%" + "p" + "]" + ("%T[%" + "c" + "]" + "%T%f:%l%T%m%n")))
  {
    hide DEFAULT_PATTERN;
    PlaceSpelled();
    LevelSpelled();
    ThreadSpelled();
    DateSpelled();
    AllSpelled();
  }

  lemma AllSpelled()
    ensures "%d{%Y-%m-%d %H:%M:%S}" + "%T%t%T%F%T[%p]%T[%c]%T%f:%l%T%m%n" == DEFAULT_PATTERN
  {
  }

  lemma ThreadSpelled()
    ensures "%T%t%T%F" + "%T[%p]%T[%c]%T%f:%l%T%m%n" == "%T%t%T%F%T[%p]%T[%c]%T%f:%l%T%m%n"
  {
  }

  lemma LevelSpelled()
    ensures "%T[%" + "p" + "]" + "%T[%c]%T%f:%l%T%m%n" == "%T[%p]%T[%c]%T%f:%l%T%m%n"
  {
  }

  lemma PlaceSpelled()
    ensures "%T[%" + "c" + "]" + "%T%f:%l%T%m%n" == "%T[%c]%T%f:%l%T%m%n"
  {
  }

  lemma DateSpelled()
    ensures "%" + "d" + "{" + "%Y-%m-%d %H:%M:%S" + "}" == "%d{%Y-%m-%d %H:%M:%S}"
  {
  }

  // ---------- what is written ----------

  const NAMES := "dtNflTnpcmF"

  // One of the eleven one-letter names.
  predicate Listed(name: string) {
    |name| == 1 && name[0] in NAMES
  }

  lemma ListedIff(name: string)
    ensures Listed(name) <==> KnownDirective(name)
  {
    if Listed(name) {
      assert name == [name[0]];
    }
  }

  // A directive with one of the eleven names writes its value; any other name is an error and
  // writes a mark that repeats it.
  lemma DirectiveWrites(name: string, fmt: string, rest: string, render: (string, string) -> string)
    requires forall j :: 0 <= j < |name| ==> name[j] in LETTERS || name[j] == '}'
    requires '}' !in fmt
    ensures var p := "%" + name + "{" + fmt + "}" + rest;
            && Output(Items(Pieces(p)), render) ==
               (if Listed(name) then render(name, fmt) else "<<error_format %" + name + ">>") +
               Output(Items(Pieces(rest)), render)
            && (Erroneous(Pieces(p)) <==> !Listed(name) || Erroneous(Pieces(rest)))
  {
    BracedReads(name, fmt, rest);
    hide *;
    WritesIs(Directive(name, fmt, true), render);
    PieceWrites(Directive(name, fmt, true), Pieces(rest), render);
  }

  lemma BareWrites(name: string, rest: string, render: (string, string) -> string)
    requires forall j :: 0 <= j < |name| ==> name[j] in LETTERS || name[j] == '}'
    requires rest != "" ==> rest[0] !in LETTERS && rest[0] != '{' && rest[0] != '}' && (name == "" ==> rest[0] != '%')
    ensures var p := "%" + name + rest;
            && Output(Items(Pieces(p)), render) ==
               (if Listed(name) then render(name, "") else "<<error_format %" + name + ">>") +
               Output(Items(Pieces(rest)), render)
            && (Erroneous(Pieces(p)) <==> !Listed(name) || Erroneous(Pieces(rest)))
  {
    BareReads(name, rest);
    hide *;
    WritesIs(Directive(name, "", false), render);
    PieceWrites(Directive(name, "", false), Pieces(rest), render);
  }

  // Text is written as it stands.
  lemma TextWrites(s: string, rest: string, render: (string, string) -> string)
    requires s != "" && forall j, k :: 0 <= j < k < |s| && s[j] == '%' ==> s[k] == '%'
    requires if rest == "" then '%' !in s else Pieces(rest) != [] && Pieces(rest)[0].Directive?
    ensures Output(Items(Pieces(s + rest)), render) == s + Output(Items(Pieces(rest)), render)
    ensures Erroneous(Pieces(s + rest)) <==> Erroneous(Pieces(rest))
  {
    TextReads(s, rest);
    hide *;
    WritesIs(Text(s), render);
    PieceWrites(Text(s), Pieces(rest), render);
  }

  // A brace that is never closed writes an error mark in place of the percent sign, and what
  // follows that is scanned again.
  lemma UnfinishedWrites(name: string, fmt: string, render: (string, string) -> string)
    requires forall j :: 0 <= j < |name| ==> name[j] in LETTERS || name[j] == '}'
    requires '}' !in fmt
    ensures var p := "%" + name + "{" + fmt;
            && Output(Items(Pieces(p)), render) ==
               "<<pattern_error>>" + Output(Items(Pieces(name + "{" + fmt)), render)
            && Erroneous(Pieces(p))
  {
    UnfinishedReads(name, fmt);
    hide *;
    WritesIs(Bad, render);
    PieceWrites(Bad, Pieces(name + "{" + fmt), render);
  }

  lemma UnfinishedReads(name: string, fmt: string)
    requires forall j :: 0 <= j < |name| ==> name[j] in LETTERS || name[j] == '}'
    requires '}' !in fmt
    ensures Pieces("%" + name + "{" + fmt) == [Bad] + Pieces(name + "{" + fmt)
  {
    forall c: char
      ensures NameChar(c) <==> c in LETTERS || c == '}'
    {
      LettersAre(c);
    }
    hide LETTERS, NameChar;
    var tail := name + "{" + fmt;
    var p := "%" + tail;
    assert "%" + name + "{" + fmt == p;
    var k := 1 + |name|;
    assert forall j :: 1 <= j < k ==> p[j] == name[j - 1];
    assert forall j :: k + 1 <= j < |p| ==> p[j] == fmt[j - k - 1];
    assert !NameChar('{');
    NameEndIs(p, 1, k);
    CloseAtIs(p, k + 1, |p|);
    assert TurnAt(p, 0, "") == Turn([Bad], 1, "");
    hide *;
    ScanStep(p, 0, "");
    ScanShift("%", tail, 0, "");
    PiecesAre(p);
    PiecesAre(tail);
  }

  // What one piece adds to the output.
  function Writes(d: Piece, render: (string, string) -> string): string {
    ItemText(ItemOf(TokenOf(d)), render)
  }

  lemma WritesIs(d: Piece, render: (string, string) -> string)
    ensures d.Text? ==> Writes(d, render) == d.chars && WellFormed(d)
    ensures d.Bad? ==> Writes(d, render) == "<<pattern_error>>" && !WellFormed(d)
    ensures d.Directive? ==>
              if Listed(d.name) then Writes(d, render) == render(d.name, d.fmt) && WellFormed(d)
              else Writes(d, render) == "<<error_format %" + d.name + ">>" && !WellFormed(d)
  {
    if d.Directive? {
      ListedIff(d.name);
      hide Listed, KnownDirective;
    }
  }

  lemma PieceWrites(d: Piece, rest: seq<Piece>, render: (string, string) -> string)
    ensures Output(Items([d] + rest), render) == Writes(d, render) + Output(Items(rest), render)
    ensures Erroneous([d] + rest) <==> !WellFormed(d) || Erroneous(rest)
  {
    OneItem(d, render);
    OneError(d, rest);
    hide *;
    ItemsConcat([d], rest);
    OutputConcat(Items([d]), Items(rest), render);
  }

  lemma OneItem(d: Piece, render: (string, string) -> string)
    ensures Output(Items([d]), render) == Writes(d, render)
  {
    hide ItemOf, TokenOf, ItemText;
    var items := Items([d]);
    assert items == [ItemOf(TokenOf(d))] && items[..0] == [];
    assert Output(items[..0], render) == "";
    assert "" + Writes(d, render) == Writes(d, render);
  }

  lemma OneError(d: Piece, rest: seq<Piece>)
    ensures Erroneous([d] + rest) <==> !WellFormed(d) || Erroneous(rest)
  {
    hide WellFormed;
    var all := [d] + rest;
    assert all[0] == d && forall j :: 0 <= j < |rest| ==> all[j + 1] == rest[j];
    if Erroneous(rest) {
      var j :| 0 <= j < |rest| && !WellFormed(rest[j]);
      assert !WellFormed(all[j + 1]);
    }
    if Erroneous(all) {
      var j :| 0 <= j < |all| && !WellFormed(all[j]);
      assert j > 0 ==> all[j] == rest[j - 1];
    }
  }

  lemma ItemIs(d: Piece)
    ensures d.Text? ==> ItemOf(TokenOf(d)) == StringItem(d.chars) && WellFormed(d)
    ensures d.Directive? && Listed(d.name) ==> ItemOf(TokenOf(d)) == ValueItem(d.name, d.fmt) && WellFormed(d)
  {
    if d.Directive? {
      ListedIff(d.name);
    }
  }

  function Value(name: string): FormatItem {
    ValueItem(name, "")
  }

  // The default pattern is free of errors, and these are its items.
  lemma DefaultItems()
    ensures !Erroneous(Pieces(DEFAULT_PATTERN))
    ensures Items(Pieces(DEFAULT_PATTERN)) ==
            [ValueItem("d", "%Y-%m-%d %H:%M:%S"),
             Value("T"), Value("t"), Value("T"), Value("F"),
             Value("T"), StringItem("["), Value("p"), StringItem("]"),
             Value("T"), StringItem("["), Value("c"), StringItem("]"),
             Value("T"), Value("f"), StringItem(":"), Value("l"), Value("T"), Value("m"), Value("n")]
  {
    hide Pieces, DEFAULT_PATTERN, Items, Listed, AllListed, Erroneous;
    DefaultReads();
    DefaultListed();
    ItemsAre(Pieces(DEFAULT_PATTERN));
  }

  lemma DefaultListed()
    ensures AllListed(Pieces(DEFAULT_PATTERN))
  {
    hide Pieces, DEFAULT_PATTERN, AllListed;
    DefaultReads();
    var a := [Directive("d", "%Y-%m-%d %H:%M:%S", true), Bare("T"), Bare("t"), Bare("T"), Bare("F")];
    var b := [Bare("T"), Text("["), Bare("p"), Text("]"), Bare("T"), Text("["), Bare("c"), Text("]")];
    var c := [Bare("T"), Bare("f"), Text(":"), Bare("l"), Bare("T"), Bare("m"), Bare("n")];
    assert Pieces(DEFAULT_PATTERN) == a + b + c;
    PartsListed();
    PlaceListed();
    ListedConcat(a, b);
    ListedConcat(a + b, c);
  }

  lemma PartsListed()
    ensures AllListed([Directive("d", "%Y-%m-%d %H:%M:%S", true), Bare("T"), Bare("t"), Bare("T"), Bare("F")])
    ensures AllListed([Bare("T"), Text("["), Bare("p"), Text("]"), Bare("T"), Text("["), Bare("c"), Text("]")])
  {
    DefaultNames();
    hide Listed;
  }

  lemma PlaceListed()
    ensures AllListed([Bare("T"), Bare("f"), Text(":"), Bare("l"), Bare("T"), Bare("m"), Bare("n")])
  {
    DefaultNames();
    hide Listed;
  }

  predicate AllListed(ps: seq<Piece>) {
    forall j :: 0 <= j < |ps| ==> ps[j].Text? || (ps[j].Directive? && Listed(ps[j].name))
  }

  lemma ListedConcat(a: seq<Piece>, b: seq<Piece>)
    requires AllListed(a) && AllListed(b)
    ensures AllListed(a + b)
  {
    hide Listed;
  }

  lemma DefaultNames()
    ensures Listed("d") && Listed("T") && Listed("t") && Listed("F") && Listed("p")
    ensures Listed("c") && Listed("f") && Listed("l") && Listed("m") && Listed("n")
  {
  }

  lemma ItemsAre(ps: seq<Piece>)
    requires AllListed(ps)
    ensures !Erroneous(ps)
    ensures forall j :: 0 <= j < |ps| ==>
              Items(ps)[j] == if ps[j].Text? then StringItem(ps[j].chars) else ValueItem(ps[j].name, ps[j].fmt)
  {
    hide Listed, WellFormed, ItemOf, TokenOf;
    forall j | 0 <= j < |ps|
      ensures WellFormed(ps[j])
      ensures ItemOf(TokenOf(ps[j])) ==
              if ps[j].Text? then StringItem(ps[j].chars) else ValueItem(ps[j].name, ps[j].fmt)
    {
      ItemIs(ps[j]);
    }
  }
}