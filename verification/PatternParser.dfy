/**
 The log pattern scanner `LogFormatter::init` and the formatter built from it
 (code/common/log.cpp:248-383).

 `Scan` is the scanner as a function on the pattern; `Tokenize` is the same scanner as
 the nested loops of the source.  The pieces that `Scan` produces remember whether a
 directive was written bare (`%m`) or with a format in braces (`%d{...}`).  The source's
 tokens forget that; `TokenOf` is the forgetful map.
 */
module PatternParser {

  datatype Piece =
    | Text(chars: string)
    | Directive(name: string, fmt: string, braced: bool)
    | Bad                      // a directive whose brace is never closed

  // The tuple (string, format, kind) that the scanner pushes; kind 1 is a directive.
  datatype Token = Token(str: string, fmt: string, kind: int)

  const PATTERN_ERROR := "<<pattern_error>>"

  // ---------- the scanner as a function ----------

  // The characters that may stand in a directive's name: isalpha() of the C locale, and
  // the closing brace, which the scanner does not treat as an end while no format is open.
  predicate NameChar(c: char) {
    'a' <= c <= 'z' || 'A' <= c <= 'Z' || c == '}'
  }

  function NameEnd(p: string, i: nat): (k: nat)
    requires i <= |p|
    ensures i <= k <= |p|
    decreases |p| - i
  {
    if i < |p| && NameChar(p[i]) then NameEnd(p, i + 1) else i
  }

  // The first closing brace at or after i, or the length of the pattern.
  function CloseAt(p: string, i: nat): (m: nat)
    requires i <= |p|
    ensures i <= m <= |p|
    decreases |p| - i
  {
    if i < |p| && p[i] != '}' then CloseAt(p, i + 1) else i
  }

  lemma {:induction false} NameEndIs(p: string, i: nat, k: nat)
    requires i <= k <= |p| && (forall j :: i <= j < k ==> NameChar(p[j])) && (k < |p| ==> !NameChar(p[k]))
    ensures NameEnd(p, i) == k
    decreases k - i
  {
    if i < k {
      NameEndIs(p, i + 1, k);
    }
  }

  lemma {:induction false} NameEndSplits(p: string, i: nat)
    requires i <= |p|
    ensures forall j :: i <= j < NameEnd(p, i) ==> NameChar(p[j])
    ensures NameEnd(p, i) < |p| ==> !NameChar(p[NameEnd(p, i)])
    decreases |p| - i
  {
    if i < |p| && NameChar(p[i]) {
      NameEndSplits(p, i + 1);
    }
  }

  lemma {:induction false} CloseAtIs(p: string, i: nat, m: nat)
    requires i <= m <= |p| && (forall j :: i <= j < m ==> p[j] != '}') && (m < |p| ==> p[m] == '}')
    ensures CloseAt(p, i) == m
    decreases m - i
  {
    if i < m {
      CloseAtIs(p, i + 1, m);
    }
  }

  lemma {:induction false} CloseAtSplits(p: string, i: nat)
    requires i <= |p|
    ensures forall j :: i <= j < CloseAt(p, i) ==> p[j] != '}'
    ensures CloseAt(p, i) < |p| ==> p[CloseAt(p, i)] == '}'
    decreases |p| - i
  {
    if i < |p| && p[i] != '}' {
      CloseAtSplits(p, i + 1);
    }
  }

  datatype Found = Complete(piece: Piece, next: nat) | Unterminated

  // What the inner loop makes of the directive that starts at the percent sign p[i].
  function DirectiveAt(p: string, i: nat): (r: Found)
    requires i < |p|
    ensures r.Complete? ==> r.piece.Directive? && i < r.next <= |p|
  {
    var k := NameEnd(p, i + 1);
    if k < |p| && p[k] == '{' then
      var m := CloseAt(p, k + 1);
      if m < |p| then Complete(Directive(p[i + 1..k], p[k + 1..m], true), m + 1) else Unterminated
    else
      Complete(Directive(p[i + 1..k], "", false), k)
  }

  function Flush(pending: string): seq<Piece> {
    if pending == "" then [] else [Text(pending)]
  }

  // One turn of the outer loop: the pieces it pushes, where it goes on, and the literal
  // text (nstr) it leaves pending.  Doubling a percent sign keeps one but consumes only
  // one, so the second starts again; an unclosed brace loses its percent sign, leaves the
  // pending text where it is, and rescans what follows.
  datatype Turn = Turn(out: seq<Piece>, next: nat, pending: string)

  function TurnAt(p: string, i: nat, pending: string): (t: Turn)
    requires i < |p|
    ensures i < t.next <= |p|
  {
    if p[i] != '%' then
      Turn([], i + 1, pending + [p[i]])
    else if i + 1 < |p| && p[i + 1] == '%' then
      Turn([], i + 1, pending + "%")
    else
      match DirectiveAt(p, i)
      case Complete(d, next) => Turn(Flush(pending) + [d], next, "")
      case Unterminated => Turn([Bad], i + 1, pending)
  }

  function Scan(p: string, i: nat, pending: string): seq<Piece>
    requires i <= |p|
    decreases |p| - i
  {
    if i == |p| then Flush(pending)
    else
      var t := TurnAt(p, i, pending);
      t.out + Scan(p, t.next, t.pending)
  }

  lemma ScanEnd(p: string, pending: string)
    ensures Scan(p, |p|, pending) == Flush(pending)
  {
  }

  lemma ScanStep(p: string, i: nat, pending: string)
    requires i < |p|
    ensures var t := TurnAt(p, i, pending);
            Scan(p, i, pending) == t.out + Scan(p, t.next, t.pending)
  {
    hide TurnAt;
  }

  function Pieces(p: string): seq<Piece> {
    Scan(p, 0, "")
  }

  predicate Clean(ps: seq<Piece>) {
    Bad !in ps
  }

  lemma CleanConcat(a: seq<Piece>, b: seq<Piece>)
    ensures Clean(a + b) <==> Clean(a) && Clean(b)
  {
  }

  function TokenOf(piece: Piece): Token {
    match piece
    case Text(s) => Token(s, "", 0)
    case Directive(name, fmt, _) => Token(name, fmt, 1)
    case Bad => Token(PATTERN_ERROR, "", 0)
  }

  function Tokens(ps: seq<Piece>): (ts: seq<Token>)
    ensures |ts| == |ps|
  {
    seq(|ps|, j requires 0 <= j < |ps| => TokenOf(ps[j]))
  }

  // ---------- the scanner as loops ----------

  // The inner loop: n runs from the character after the percent sign; fmtStatus is 1 while
  // a brace is open.
  method ScanDirective(p: string, i: nat) returns (n: nat, fmtStatus: int, str: string, fmt: string)
    requires i < |p|
    ensures fmtStatus == 0 || fmtStatus == 1
    ensures fmtStatus == 1 <==> DirectiveAt(p, i).Unterminated?
    ensures fmtStatus == 0 ==>
              exists braced :: DirectiveAt(p, i) == Complete(Directive(str, fmt, braced), n)
    ensures fmt == "" || fmtStatus == 0
  {
    n, fmtStatus, str, fmt := i + 1, 0, "", "";
    var fmtBegin := 0;
    ghost var k := NameEnd(p, i + 1);
    while n < |p|
      invariant i + 1 <= n <= |p|
      invariant fmtStatus == 0 || fmtStatus == 1
      invariant fmt == ""
      invariant fmtStatus == 0 ==> NameEnd(p, n) == k && (forall j :: i < j < n ==> NameChar(p[j]))
      invariant fmtStatus == 0 ==> str == if n == |p| then p[i + 1..] else ""
      invariant fmtStatus == 1 ==> fmtBegin == k < n && p[k] == '{' && CloseAt(p, n) == CloseAt(p, k + 1)
      invariant fmtStatus == 1 && n < |p| ==> str == p[i + 1..k]
    {
      if fmtStatus == 0 && !NameChar(p[n]) && p[n] != '{' {
        str := p[i + 1..n];
        break;
      }
      if fmtStatus == 0 {
        if p[n] == '{' {
          str := p[i + 1..n];
          fmtStatus := 1;
          fmtBegin := n;
          n := n + 1;
          continue;
        }
      } else {
        if p[n] == '}' {
          fmt := p[fmtBegin + 1..n];
          fmtStatus := 0;
          n := n + 1;
          assert DirectiveAt(p, i) == Complete(Directive(str, fmt, true), n);
          return;
        }
      }
      n := n + 1;
      if n == |p| {
        if str == "" {
          str := p[i + 1..];
        }
      }
    }
    if fmtStatus == 0 {
      assert n == k;
      assert p[i + 1..n] == str;
      assert DirectiveAt(p, i) == Complete(Directive(str, fmt, false), n);
    }
  }

  lemma TokensConcat(a: seq<Piece>, b: seq<Piece>)
    ensures Tokens(a + b) == Tokens(a) + Tokens(b)
  {
  }

  // One turn, as the loop sees it: what has been pushed, and what is still to come.
  lemma TokensTurn(p: string, i: nat, pending: string, vec: seq<Token>)
    requires i < |p|
    ensures var t := TurnAt(p, i, pending);
            && vec + Tokens(Scan(p, i, pending)) == vec + Tokens(t.out) + Tokens(Scan(p, t.next, t.pending))
            && (Clean(Scan(p, i, pending)) <==> Clean(t.out) && Clean(Scan(p, t.next, t.pending)))
            && (t.out == [] ==> vec + Tokens(t.out) == vec && Clean(t.out))
  {
    var t := TurnAt(p, i, pending);
    hide TurnAt;
    ScanStep(p, i, pending);
    TokensConcat(t.out, Scan(p, t.next, t.pending));
    CleanConcat(t.out, Scan(p, t.next, t.pending));
  }

  lemma TokensOfDirectiveTurn(p: string, i: nat, pending: string, vec: seq<Token>)
    requires i < |p| && p[i] == '%' && !(i + 1 < |p| && p[i + 1] == '%')
    ensures var t, d := TurnAt(p, i, pending), DirectiveAt(p, i);
            && vec + Tokens(t.out) ==
               (if d.Unterminated? then vec + [Token(PATTERN_ERROR, "", 0)]
                else (if pending == "" then vec else vec + [Token(pending, "", 0)]) +
                     [Token(d.piece.name, d.piece.fmt, 1)])
            && (Clean(t.out) <==> d.Complete?)
            && t.next == (if d.Unterminated? then i + 1 else d.next)
            && t.pending == (if d.Unterminated? then pending else "")
  {
    hide DirectiveAt;
  }

  lemma TurnAtText(p: string, i: nat, pending: string)
    requires i < |p|
    ensures p[i] != '%' ==> TurnAt(p, i, pending) == Turn([], i + 1, pending + [p[i]])
    ensures p[i] == '%' && i + 1 < |p| && p[i + 1] == '%' ==> TurnAt(p, i, pending) == Turn([], i + 1, pending + "%")
  {
  }

  lemma TokensStart(p: string)
    ensures Pieces(p) == Scan(p, 0, "") && Tokens(Pieces(p)) == [] + Tokens(Scan(p, 0, ""))
  {
  }

  lemma TokensEnd(p: string, pending: string, vec: seq<Token>)
    ensures vec + Tokens(Scan(p, |p|, pending)) == if pending == "" then vec else vec + [Token(pending, "", 0)]
    ensures Clean(Scan(p, |p|, pending))
  {
  }

  // The outer loop with the final flush; `bad` is the error flag it sets.
  method Tokenize(p: string) returns (vec: seq<Token>, bad: bool)
    ensures vec == Tokens(Pieces(p))
    ensures bad <==> !Clean(Pieces(p))
  {
    hide *;
    vec, bad := [], false;
    var nstr := "";
    var i := 0;
    TokensStart(p);
    while i < |p|
      invariant 0 <= i <= |p|
      invariant Tokens(Pieces(p)) == vec + Tokens(Scan(p, i, nstr))
      invariant (bad || !Clean(Scan(p, i, nstr))) <==> !Clean(Pieces(p))
      decreases |p| - i
    {
      TokensTurn(p, i, nstr, vec);
      TurnAtText(p, i, nstr);
      if p[i] != '%' {
        nstr := nstr + [p[i]];
        i := i + 1;
        continue;
      }
      if i + 1 < |p| {
        if p[i + 1] == '%' {
          nstr := nstr + "%";
          i := i + 1;
          continue;
        }
      }
      TokensOfDirectiveTurn(p, i, nstr, vec);
      var n, fmtStatus, str, fmt := ScanDirective(p, i);
      if fmtStatus == 0 {
        if nstr != "" {
          vec := vec + [Token(nstr, "", 0)];
          nstr := "";
        }
        vec := vec + [Token(str, fmt, 1)];
        i := n - 1;
      } else {
        bad := true;
        vec := vec + [Token(PATTERN_ERROR, fmt, 0)];
      }
      i := i + 1;
    }
    TokensEnd(p, nstr, vec);
    if nstr != "" {
      vec := vec + [Token(nstr, "", 0)];
    }
  }

  // ---------- losslessness ----------

  function RenderPiece(piece: Piece): string {
    match piece
    case Text(s) => s
    case Directive(name, fmt, braced) => if braced then "%" + name + "{" + fmt + "}" else "%" + name
    case Bad => "%"
  }

  function Render(ps: seq<Piece>): string {
    if ps == [] then "" else RenderPiece(ps[0]) + Render(ps[1..])
  }

  lemma {:induction false} RenderConcat(a: seq<Piece>, b: seq<Piece>)
    ensures Render(a + b) == Render(a) + Render(b)
  {
    if a == [] {
      assert a + b == b;
    } else {
      assert (a + b)[1..] == a[1..] + b;
      RenderConcat(a[1..], b);
    }
  }

  // A completed directive is spelled exactly as it was read.
  lemma DirectiveSpelling(p: string, i: nat)
    requires i < |p| && p[i] == '%' && DirectiveAt(p, i).Complete?
    ensures RenderPiece(DirectiveAt(p, i).piece) == p[i..DirectiveAt(p, i).next]
  {
    var k := NameEnd(p, i + 1);
    assert p[i..k] == "%" + p[i + 1..k];
    if k < |p| && p[k] == '{' {
      CloseAtSplits(p, k + 1);
      var m := CloseAt(p, k + 1);
      if m < |p| {
        assert p[i..m + 1] == p[i..k] + "{" + p[k + 1..m] + "}";
      }
    }
  }

  // What one turn pushes and leaves pending is what it found pending and read.
  lemma TurnIsLossless(p: string, i: nat, pending: string)
    requires i < |p|
    ensures var t := TurnAt(p, i, pending);
            Clean(t.out) ==> Render(t.out) + t.pending == pending + p[i..t.next]
  {
    var t := TurnAt(p, i, pending);
    if t.out == [] {
      assert p[i..i + 1] == [p[i]];
    } else if DirectiveAt(p, i).Complete? {
      var d := DirectiveAt(p, i).piece;
      DirectiveSpelling(p, i);
      RenderConcat(Flush(pending), [d]);
      RenderFlush(pending, d);
    } else {
      assert t.out[0] == Bad;
    }
  }

  lemma RenderFlush(pending: string, d: Piece)
    ensures Render(Flush(pending)) == pending && Render([d]) == RenderPiece(d)
  {
    assert [d][1..] == [] && RenderPiece(d) + "" == RenderPiece(d);
    if pending != "" {
      assert [Text(pending)][1..] == [] && pending + "" == pending;
    }
  }

  lemma TurnKeepsCharacters(p: string, i: nat, pending: string)
    requires i < |p|
    ensures var t := TurnAt(p, i, pending);
            multiset(Render(t.out) + t.pending) == multiset(pending + p[i..t.next])
  {
    var t := TurnAt(p, i, pending);
    if Clean(t.out) {
      TurnIsLossless(p, i, pending);
    } else {
      assert t == Turn([Bad], i + 1, pending);
      RenderFlush(pending, Bad);
      assert p[i..i + 1] == "%";
    }
  }

  lemma SplitAt(p: string, i: nat, j: nat, pending: string)
    requires i <= j <= |p|
    ensures p[i..] == p[i..j] + p[j..] && pending + p[i..] == pending + p[i..j] + p[j..]
  {
    assert p[i..] == p[i..j] + p[j..];
  }

  lemma Regroup(o: string, w: string, b: string, pending: string, a: string)
    requires o + w == pending + a
    ensures o + (w + b) == pending + (a + b)
  {
    assert o + (w + b) == (o + w) + b;
    assert pending + (a + b) == (pending + a) + b;
  }

  // Rendering the pieces of a pattern without an unclosed brace gives the pattern back.
  lemma {:induction false} ScanIsLossless(p: string, i: nat, pending: string)
    requires i <= |p| && Clean(Scan(p, i, pending))
    ensures Render(Scan(p, i, pending)) == pending + p[i..]
    decreases |p| - i
  {
    hide TurnAt;
    if i == |p| {
      RenderFlush(pending, Bad);
    } else {
      var t := TurnAt(p, i, pending);
      var rest := Scan(p, t.next, t.pending);
      CleanConcat(t.out, rest);
      ScanIsLossless(p, t.next, t.pending);
      RenderTurn(p, i, pending);
      TurnIsLossless(p, i, pending);
      Regroup(Render(t.out), t.pending, p[t.next..], pending, p[i..t.next]);
      SplitAt(p, i, t.next, pending);
    }
  }

  lemma RenderTurn(p: string, i: nat, pending: string)
    requires i < |p|
    ensures var t := TurnAt(p, i, pending);
            Render(Scan(p, i, pending)) == Render(t.out) + Render(Scan(p, t.next, t.pending))
  {
    var t := TurnAt(p, i, pending);
    RenderConcat(t.out, Scan(p, t.next, t.pending));
  }

  // Whatever the pattern, no character is invented and none is dropped: an unclosed
  // directive only moves its own percent sign in front of the pending text.
  lemma {:induction false} ScanKeepsCharacters(p: string, i: nat, pending: string)
    requires i <= |p|
    ensures multiset(Render(Scan(p, i, pending))) == multiset(pending + p[i..])
    decreases |p| - i
  {
    hide TurnAt;
    if i == |p| {
      RenderFlush(pending, Bad);
      assert pending + p[i..] == pending;
    } else {
      var t := TurnAt(p, i, pending);
      ScanKeepsCharacters(p, t.next, t.pending);
      RenderTurn(p, i, pending);
      TurnKeepsCharacters(p, i, pending);
      SplitAt(p, i, t.next, pending);
    }
  }

  lemma Lossless(p: string)
    requires Clean(Pieces(p))
    ensures Render(Pieces(p)) == p
  {
    ScanIsLossless(p, 0, "");
  }

  // ---------- exactly when ----------

  // Where a character leaves a reader who knows nothing of the scanner.
  datatype Mode = InText | AfterPercent | InName | InFormat

  function NextMode(mode: Mode, c: char): Mode {
    match mode
    case InText => if c == '%' then AfterPercent else InText
    case InFormat => if c == '}' then InText else InFormat
    case _ =>
      if c == '%' then AfterPercent
      else if c == '{' then InFormat
      else if NameChar(c) then InName
      else InText
  }

  // The pattern, read from k on, ends inside a format.
  predicate EndsOpen(p: string, k: nat, mode: Mode)
    requires k <= |p|
    decreases |p| - k
  {
    if k == |p| then mode == InFormat else EndsOpen(p, k + 1, NextMode(mode, p[k]))
  }

  // Every brace that opens a format and is never closed comes when the text since the last
  // directive has been percent signs only (`pure`).
  predicate OpensPure(p: string, k: nat, mode: Mode, pure: bool)
    requires k <= |p|
    decreases |p| - k
  {
    if k == |p| then true
    else
      var c := p[k];
      match mode
      case InText => OpensPure(p, k + 1, NextMode(mode, c), pure && c == '%')
      case InFormat => OpensPure(p, k + 1, NextMode(mode, c), true)
      case _ =>
        if c == '{' && CloseAt(p, k + 1) == |p| then pure && OpensPure(p, k + 1, InText, false)
        else if c == '%' then OpensPure(p, k + 1, AfterPercent, pure || mode == InName)
        else if c == '{' || NameChar(c) then OpensPure(p, k + 1, NextMode(mode, c), pure)
        else OpensPure(p, k + 1, InText, false)
  }

  predicate AllPercent(s: string) {
    forall j :: 0 <= j < |s| ==> s[j] == '%'
  }

  // Through a name.
  lemma {:induction false} ReadName(p: string, k: nat, mode: Mode, pure: bool)
    requires k <= |p| && (mode == AfterPercent || mode == InName)
    ensures var n := NameEnd(p, k); var after := if n == k then mode else InName;
            EndsOpen(p, k, mode) == EndsOpen(p, n, after) && OpensPure(p, k, mode, pure) == OpensPure(p, n, after, pure)
    decreases |p| - k
  {
    if k < |p| && NameChar(p[k]) {
      ReadName(p, k + 1, InName, pure);
    }
  }

  // Through a format.
  lemma {:induction false} ReadFormat(p: string, k: nat)
    requires k <= |p|
    ensures var m := CloseAt(p, k);
            if m < |p| then
              EndsOpen(p, k, InFormat) == EndsOpen(p, m + 1, InText)
                  && OpensPure(p, k, InFormat, true) == OpensPure(p, m + 1, InText, true)
            else EndsOpen(p, k, InFormat)
    decreases |p| - k
  {
    if k < |p| && p[k] != '}' {
      ReadFormat(p, k + 1);
    }
  }

  // Through the name of a directive whose brace is never closed, as plain text.
  lemma {:induction false} ReadNameAsText(p: string, k: nat, pure: bool)
    requires k <= |p| && NameEnd(p, k) < |p| && p[NameEnd(p, k)] == '{'
    ensures OpensPure(p, k, InText, pure) == OpensPure(p, NameEnd(p, k) + 1, InText, false)
    decreases |p| - k
  {
    if NameChar(p[k]) {
      ReadNameAsText(p, k + 1, false);
    }
  }

  predicate Doubled(p: string, i: nat) {
    i + 1 < |p| && p[i + 1] == '%'
  }

  lemma ReadDoubled(p: string, i: nat, pure: bool)
    requires i < |p| && p[i] == '%' && Doubled(p, i)
    ensures EndsOpen(p, i, InText) == EndsOpen(p, i + 1, InText)
    ensures OpensPure(p, i, InText, pure) == OpensPure(p, i + 1, InText, pure)
  {
    assert EndsOpen(p, i + 1, AfterPercent) == EndsOpen(p, i + 2, AfterPercent);
    assert OpensPure(p, i + 1, AfterPercent, pure) == OpensPure(p, i + 2, AfterPercent, pure);
  }

  lemma ReadDirective(p: string, i: nat, pure: bool)
    requires i < |p| && p[i] == '%' && !Doubled(p, i) && DirectiveAt(p, i).Complete?
    ensures var next := DirectiveAt(p, i).next;
            EndsOpen(p, i, InText) == EndsOpen(p, next, InText)
                && OpensPure(p, i, InText, pure) == OpensPure(p, next, InText, true)
  {
    var n := NameEnd(p, i + 1);
    NameEndSplits(p, i + 1);
    ReadName(p, i + 1, AfterPercent, pure);
    if n < |p| && p[n] == '{' {
      ReadFormat(p, n + 1);
    }
  }

  lemma ReadUnterminated(p: string, i: nat, pure: bool)
    requires i < |p| && p[i] == '%' && !Doubled(p, i) && DirectiveAt(p, i).Unterminated?
    ensures EndsOpen(p, i, InText)
    ensures OpensPure(p, i, InText, pure) <==> pure && OpensPure(p, i + 1, InText, pure)
  {
    var n := NameEnd(p, i + 1);
    ReadName(p, i + 1, AfterPercent, pure);
    ReadFormat(p, n + 1);
    ReadNameAsText(p, i + 1, pure);
  }

  // The error flag can be told from the characters alone: it is set exactly when the pattern
  // ends inside a format.
  lemma {:induction false} ScanIsClean(p: string, i: nat, pending: string)
    requires i <= |p|
    ensures Clean(Scan(p, i, pending)) <==> !EndsOpen(p, i, InText)
    decreases |p| - i
  {
    if i < |p| {
      var t := TurnAt(p, i, pending);
      CleanConcat(t.out, Scan(p, t.next, t.pending));
      ScanIsClean(p, t.next, t.pending);
      hide Scan, EndsOpen;
      TurnIsClean(p, i, pending);
    }
  }

  lemma TurnIsClean(p: string, i: nat, pending: string)
    requires i < |p|
    ensures var t := TurnAt(p, i, pending);
            EndsOpen(p, i, InText) <==> !Clean(t.out) || EndsOpen(p, t.next, InText)
  {
    if p[i] == '%' {
      if Doubled(p, i) {
        ReadDoubled(p, i, true);
      } else if DirectiveAt(p, i).Complete? {
        ReadDirective(p, i, true);
      } else {
        ReadUnterminated(p, i, true);
        assert TurnAt(p, i, pending).out[0] == Bad;
      }
    }
  }

  lemma CleanIff(p: string)
    ensures Clean(Pieces(p)) <==> !EndsOpen(p, 0, InText)
  {
    ScanIsClean(p, 0, "");
  }

  // ---------- losslessness, exactly ----------

  // Percent signs in front of the pending text come out in front.
  lemma {:induction false} PercentsLead(p: string, i: nat, pending: string, a: nat)
    requires i <= |p| && a <= |pending| && AllPercent(pending[..a])
    ensures var r := Render(Scan(p, i, pending)); a <= |r| && AllPercent(r[..a])
    decreases |p| - i
  {
    if i == |p| {
      RenderFlush(pending, Bad);
    } else {
      var t := TurnAt(p, i, pending);
      RenderTurn(p, i, pending);
      TurnKinds(p, i, pending);
      hide TurnAt, Scan, Render, Flush;
      if t.out == [] || t.out == [Bad] {
        assert t.pending[..a] == pending[..a];
        PercentsLead(p, t.next, t.pending, a);
      }
      TurnLeads(Render(t.out), Render(Scan(p, t.next, t.pending)), pending, a);
    }
  }

  lemma TurnLeads(o: string, r: string, pending: string, a: nat)
    requires a <= |pending| && AllPercent(pending[..a])
    requires pending <= o || ((o == "" || o == "%") && a <= |r| && AllPercent(r[..a]))
    ensures a <= |o + r| && AllPercent((o + r)[..a])
  {
    if pending <= o {
      assert (o + r)[..a] == pending[..a];
    } else {
      assert forall j :: 0 <= j < a - |o| ==> (o + r)[..a][|o| + j] == r[..a][j];
    }
  }

  // What a turn can push: nothing, an error, or the pending text and a directive.
  lemma TurnKinds(p: string, i: nat, pending: string)
    requires i < |p|
    ensures var t := TurnAt(p, i, pending);
            || (t.out == [] && pending <= t.pending && Render(t.out) == "")
            || (t.out == [Bad] && pending == t.pending && Render(t.out) == "%")
            || (t.out != [] && t.out != [Bad] && pending <= Render(t.out))
  {
    RenderFlush(pending, Bad);
    if p[i] == '%' && !Doubled(p, i) && DirectiveAt(p, i).Complete? {
      var d := DirectiveAt(p, i).piece;
      FlushLeads(pending, d);
      assert (Flush(pending) + [d])[|Flush(pending)|] == d;
    }
  }

  lemma FlushLeads(pending: string, d: Piece)
    ensures Render(Flush(pending) + [d]) == pending + RenderPiece(d)
  {
    RenderConcat(Flush(pending), [d]);
    RenderFlush(pending, d);
  }

  // An error keeps the order exactly if the text it overtakes is percent signs.
  lemma ErrorKeepsOrder(pending: string, r: string, rest: string)
    requires forall a: nat :: a <= |pending| && AllPercent(pending[..a]) ==> a <= |r| && AllPercent(r[..a])
    ensures "%" + r == pending + ("%" + rest) <==> AllPercent(pending) && r == pending + rest
  {
    if AllPercent(pending) {
      assert "%" + pending == pending + "%";
      assert pending + ("%" + rest) == "%" + (pending + rest);
      if "%" + r == "%" + (pending + rest) {
        assert ("%" + r)[1..] == r && ("%" + (pending + rest))[1..] == pending + rest;
      }
    } else {
      var a := FirstOther(pending);
      assert pending[..a] == pending[..a] && AllPercent(pending[..a]);
      assert (pending + ("%" + rest))[a] == pending[a];
      if a > 0 {
        assert ("%" + r)[a] == r[..a][a - 1];
      }
    }
  }

  function FirstOther(s: string): (a: nat)
    requires !AllPercent(s)
    ensures a < |s| && s[a] != '%' && AllPercent(s[..a])
  {
    if s[0] != '%' then 0
    else
      assert forall j :: 1 <= j < |s| ==> s[j] == s[1..][j - 1];
      1 + FirstOther(s[1..])
  }

  lemma {:induction false} ScanKeepsOrder(p: string, i: nat, pending: string)
    requires i <= |p|
    ensures Render(Scan(p, i, pending)) == pending + p[i..] <==> OpensPure(p, i, InText, AllPercent(pending))
    decreases |p| - i
  {
    if i == |p| {
      RenderFlush(pending, Bad);
      assert pending + p[i..] == pending;
    } else {
      var t := TurnAt(p, i, pending);
      ScanKeepsOrder(p, t.next, t.pending);
      RenderTurn(p, i, pending);
      TurnOrder(p, i, pending);
    }
  }

  lemma TurnOrder(p: string, i: nat, pending: string)
    requires i < |p|
    ensures var t := TurnAt(p, i, pending); var r := Render(Scan(p, t.next, t.pending));
            && (Render(t.out) + r == pending + p[i..] <==>
                  r == t.pending + p[t.next..] && (t.out == [Bad] ==> AllPercent(pending)))
            && (OpensPure(p, i, InText, AllPercent(pending)) <==>
                  OpensPure(p, t.next, InText, AllPercent(t.pending)) && (t.out == [Bad] ==> AllPercent(pending)))
  {
    hide *;
    TurnText(p, i, pending);
    TurnPure(p, i, pending);
  }

  lemma TurnText(p: string, i: nat, pending: string)
    requires i < |p|
    ensures var t := TurnAt(p, i, pending); var r := Render(Scan(p, t.next, t.pending));
            Render(t.out) + r == pending + p[i..] <==>
              r == t.pending + p[t.next..] && (t.out == [Bad] ==> AllPercent(pending))
  {
    var t := TurnAt(p, i, pending);
    var r := Render(Scan(p, t.next, t.pending));
    SplitAt(p, i, t.next, pending);
    if Clean(t.out) {
      TurnIsLossless(p, i, pending);
      hide *;
      CancelFront(Render(t.out), t.pending, r, p[t.next..], pending + p[i..t.next]);
    } else {
      assert t == Turn([Bad], i + 1, pending) && p[i] == '%';
      hide *;
      BadTurnText(p, i, pending);
    }
  }

  lemma BadTurnText(p: string, i: nat, pending: string)
    requires i < |p| && p[i] == '%'
    ensures var r := Render(Scan(p, i + 1, pending));
            Render([Bad]) + r == pending + p[i..] <==> r == pending + p[i + 1..] && AllPercent(pending)
  {
    var r := Render(Scan(p, i + 1, pending));
    RenderFlush("", Bad);
    assert p[i..] == "%" + p[i + 1..];
    hide Render, Scan, AllPercent;
    forall a: nat | a <= |pending| && AllPercent(pending[..a])
      ensures a <= |r| && AllPercent(r[..a])
    {
      PercentsLead(p, i + 1, pending, a);
    }
    ErrorKeepsOrder(pending, r, p[i + 1..]);
  }

  lemma CancelFront(o: string, w: string, r: string, rest: string, front: string)
    requires o + w == front
    ensures o + r == front + rest <==> r == w + rest
  {
    assert o + (w + rest) == front + rest;
    if o + r == o + (w + rest) {
      assert (o + r)[|o|..] == r && (o + (w + rest))[|o|..] == w + rest;
    }
  }

  lemma TurnPure(p: string, i: nat, pending: string)
    requires i < |p|
    ensures var t := TurnAt(p, i, pending);
            OpensPure(p, i, InText, AllPercent(pending)) <==>
              OpensPure(p, t.next, InText, AllPercent(t.pending)) && (t.out == [Bad] ==> AllPercent(pending))
  {
    if p[i] != '%' {
      assert (pending + [p[i]])[|pending|] != '%';
    } else if Doubled(p, i) {
      assert AllPercent(pending + "%") <==> AllPercent(pending) by {
        assert forall j :: 0 <= j < |pending| ==> (pending + "%")[j] == pending[j];
      }
      ReadDoubled(p, i, AllPercent(pending));
    } else if DirectiveAt(p, i).Complete? {
      ReadDirective(p, i, AllPercent(pending));
      assert TurnAt(p, i, pending).out[|Flush(pending)|] == DirectiveAt(p, i).piece;
    } else {
      ReadUnterminated(p, i, AllPercent(pending));
    }
  }

  // Rendering gives the pattern back if and only if every brace that is never closed opens
  // when the text since the last directive has been percent signs only.
  lemma LosslessIff(p: string)
    ensures Render(Pieces(p)) == p <==> OpensPure(p, 0, InText, true)
  {
    ScanKeepsOrder(p, 0, "");
    assert "" + p[0..] == p;
  }

  // An error that loses the order, and one that does not.
  lemma LosslessFails()
    ensures Pieces("a%{") == [Bad, Text("a{")] && Render(Pieces("a%{")) == "%a{"
    ensures !Clean(Pieces("%{")) && Render(Pieces("%{")) == "%{"
  {
    ShortScan("a");
    ShortScan("");
    assert "a" + "%{" == "a%{" && "a" + "{" == "a{" && "" + "%{" == "%{" && "" + "{" == "{";
    assert TurnAt("a%{", 0, "") == Turn([], 1, "a");
    assert Pieces("a%{") == [] + Scan("a%{", 1, "a");
    assert [Text("a{")][1..] == [] && [Text("{")][1..] == [];
    assert [Bad, Text("a{")][1..] == [Text("a{")] && [Bad, Text("{")][1..] == [Text("{")];
  }

  lemma ShortScan(q: string)
    requires |q| <= 1
    ensures Scan(q + "%{", |q|, q) == [Bad, Text(q + "{")]
  {
    var p := q + "%{";
    assert NameEnd(p, |q| + 1) == |q| + 1 && CloseAt(p, |q| + 2) == |p|;
    assert TurnAt(p, |q|, q) == Turn([Bad], |q| + 1, q);
    assert TurnAt(p, |q| + 1, q) == Turn([], |q| + 2, q + "{");
    assert Scan(p, |q| + 2, q + "{") == [Text(q + "{")];
    assert Scan(p, |q| + 1, q) == [] + [Text(q + "{")];
  }

  // ---------- printing and parsing are inverse ----------

  // Literal text can hold percent signs only at its end, and then a directive must follow.
  predicate PrintableText(s: string, rest: seq<Piece>) {
    && s != ""
    && (forall j, k :: 0 <= j < k < |s| && s[j] == '%' ==> s[k] == '%')
    && (rest == [] || rest[0].Directive?)
    && (s[|s| - 1] == '%' ==> rest != [])
  }

  // A bare directive must not run into what follows it.
  predicate PrintableBare(name: string, rest: seq<Piece>) {
    rest == [] ||
    match rest[0]
    case Text(s) => s != "" && !NameChar(s[0]) && s[0] != '{' && (name == "" ==> s[0] != '%')
    case Directive(_, _, _) => name != ""
    case Bad => false
  }

  predicate Printable(ps: seq<Piece>) {
    ps == [] ||
    (&& Printable(ps[1..])
     && match ps[0]
        case Text(s) => PrintableText(s, ps[1..])
        case Directive(name, fmt, braced) =>
          && (forall j :: 0 <= j < |name| ==> NameChar(name[j]))
          && (if braced then '}' !in fmt else fmt == "" && PrintableBare(name, ps[1..]))
        case Bad => false)
  }

  // How the text of a printed list begins.
  lemma PrintedStart(ps: seq<Piece>)
    requires Printable(ps) && ps != []
    ensures Render(ps) != ""
    ensures Render(ps)[0] == if ps[0].Text? then ps[0].chars[0] else '%'
  {
  }

  lemma PrefixSlice(p: string, i: nat, head: string, a: nat, b: nat)
    requires i <= |p| && head <= p[i..] && a <= b <= |head|
    ensures p[i + a..i + b] == head[a..b]
    ensures forall j :: a <= j < b ==> p[i + j] == head[j]
  {
    assert forall j :: a <= j < b ==> p[i + j] == p[i..][j] == head[j];
  }

  // The spelling of a directive, followed by text it does not run into, is read as it.
  lemma SpelledDirective(p: string, i: nat, name: string, fmt: string, braced: bool)
    requires forall j :: 0 <= j < |name| ==> NameChar(name[j])
    requires i <= |p| && RenderPiece(Directive(name, fmt, braced)) <= p[i..]
    requires if braced then '}' !in fmt else
               fmt == "" && (i + 1 + |name| < |p| ==> !NameChar(p[i + 1 + |name|]) && p[i + 1 + |name|] != '{')
    ensures p[i] == '%'
    ensures DirectiveAt(p, i) ==
            Complete(Directive(name, fmt, braced), i + |RenderPiece(Directive(name, fmt, braced))|)
  {
    var k := i + 1 + |name|;
    if braced {
      SpelledBraced(p, i, name, fmt);
    } else {
      assert "%" + name + "" == "%" + name;
      PrefixParts(p, i, "%", name, "");
      assert p[i + 0] == "%"[0];
      SpelledName(p, i + 1, name);
    }
  }

  lemma SpelledName(p: string, i: nat, name: string)
    requires i + |name| <= |p| && p[i..i + |name|] == name
    requires forall j :: 0 <= j < |name| ==> NameChar(name[j])
    requires i + |name| < |p| ==> !NameChar(p[i + |name|])
    ensures NameEnd(p, i) == i + |name|
  {
    hide NameChar;
    assert forall j :: i <= j < i + |name| ==> p[j] == p[i..i + |name|][j - i];
    NameEndIs(p, i, i + |name|);
  }

  lemma SpelledBraced(p: string, i: nat, name: string, fmt: string)
    requires forall j :: 0 <= j < |name| ==> NameChar(name[j])
    requires i <= |p| && "%" + name + "{" + fmt + "}" <= p[i..] && '}' !in fmt
    ensures p[i] == '%' && DirectiveAt(p, i) == Complete(Directive(name, fmt, true), i + |name| + |fmt| + 3)
  {
    hide NameEnd, CloseAt;
    var k := i + 1 + |name|;
    PrefixParts(p, i, "%" + name + "{", fmt, "}");
    assert "%" + name + "{" <= p[i..];
    PrefixParts(p, i, "%", name, "{");
    assert p[i + 0] == "%"[0];
    SpelledName(p, i + 1, name);
    SpelledFormat(p, k + 1, fmt);
  }

  lemma SpelledFormat(p: string, k: nat, fmt: string)
    requires k + |fmt| < |p| && p[k..k + |fmt|] == fmt && p[k + |fmt|] == '}'
    requires forall j :: 0 <= j < |fmt| ==> fmt[j] != '}'
    ensures CloseAt(p, k) == k + |fmt|
  {
    assert forall j :: k <= j < k + |fmt| ==> p[j] == p[k..k + |fmt|][j - k];
    CloseAtIs(p, k, k + |fmt|);
  }

  lemma PrefixParts(p: string, i: nat, a: string, b: string, c: string)
    requires i <= |p| && a + b + c <= p[i..]
    ensures i + |a| + |b| + |c| <= |p|
    ensures forall j :: 0 <= j < |a| ==> p[i + j] == a[j]
    ensures p[i + |a|..i + |a| + |b|] == b
    ensures c != "" ==> p[i + |a| + |b|] == c[0]
  {
    var head := a + b + c;
    PrefixSlice(p, i, head, 0, |head|);
    assert forall j :: 0 <= j < |b| ==> p[i + (|a| + j)] == head[|a| + j] == b[j];
    assert c != "" ==> p[i + (|a| + |b|)] == head[|a| + |b|];
  }

  // A printed directive is read back as itself, whatever text is pending.
  lemma PrintedDirective(p: string, i: nat, ps: seq<Piece>, pending: string)
    requires i <= |p| && p[i..] == Render(ps) && Printable(ps) && ps != [] && ps[0].Directive?
    ensures i < |p| && p[i] == '%'
    ensures TurnAt(p, i, pending) == Turn(Flush(pending) + [ps[0]], i + |RenderPiece(ps[0])|, "")
    ensures p[i + |RenderPiece(ps[0])|..] == Render(ps[1..])
  {
    var Directive(name, fmt, braced) := ps[0];
    var head, rest := RenderPiece(ps[0]), Render(ps[1..]);
    assert p[i..][|head|..] == rest;
    assert p[i + |head|..] == rest;
    assert |head| >= 1 && head[0] == '%';
    assert p[i] == p[i..][0];
    if ps[1..] != [] {
      PrintedStart(ps[1..]);
      assert p[i + |head|] == p[i + |head|..][0];
    }
    SpelledDirective(p, i, name, fmt, braced);
    if i + 1 < |p| {
      assert p[i + 1] == p[i..][1] == (head + rest)[1];
      assert |head| > 1 ==> head[1] == if name != "" then name[0] else '{';
      assert |head| == 1 ==> !braced && name == "" && (head + rest)[1] == rest[0];
    }
  }

  // Printed literal text is collected whole.
  lemma {:induction false} PrintedText(p: string, i: nat, pending: string, s: string)
    requires i + |s| <= |p| && p[i..i + |s|] == s
    requires forall j :: 0 <= j < |s| && s[j] == '%' ==> i + j + 1 < |p| && p[i + j + 1] == '%'
    ensures Scan(p, i, pending) == Scan(p, i + |s|, pending + s)
    decreases |s|
  {
    hide *;
    if s == "" {
      assert pending + s == pending;
    } else {
      assert p[i + 1..i + |s|] == s[1..];
      TextTurn(p, i, pending, s);
      ScanStep(p, i, pending);
      TailDoubled(p, i, s);
      PrintedText(p, i + 1, pending + [s[0]], s[1..]);
      assert pending + [s[0]] + s[1..] == pending + s;
      assert [] + Scan(p, i + 1, pending + [s[0]]) == Scan(p, i + 1, pending + [s[0]]);
    }
  }

  lemma TextTurn(p: string, i: nat, pending: string, s: string)
    requires s != "" && i + |s| <= |p| && p[i..i + |s|] == s
    requires forall j :: 0 <= j < |s| && s[j] == '%' ==> i + j + 1 < |p| && p[i + j + 1] == '%'
    ensures TurnAt(p, i, pending) == Turn([], i + 1, pending + [s[0]])
  {
    assert p[i] == p[i..i + |s|][0] == s[0];
    assert s[0] == '%' ==> i + 0 + 1 < |p| && p[i + 0 + 1] == '%';
    hide DirectiveAt;
  }

  lemma TailDoubled(p: string, i: nat, s: string)
    requires s != "" && forall j :: 0 <= j < |s| && s[j] == '%' ==> i + j + 1 < |p| && p[i + j + 1] == '%'
    ensures forall j :: 0 <= j < |s[1..]| && s[1..][j] == '%' ==> i + 1 + j + 1 < |p| && p[i + 1 + j + 1] == '%'
  {
    forall j | 0 <= j < |s[1..]| && s[1..][j] == '%'
      ensures i + 1 + j + 1 < |p| && p[i + 1 + j + 1] == '%'
    {
      assert s[j + 1] == '%';
    }
  }

  lemma PrintedTextPlace(p: string, i: nat, s: string, rest: string)
    requires i <= |p| && p[i..] == s + rest
    ensures i + |s| <= |p| && p[i..i + |s|] == s && p[i + |s|..] == rest
    ensures forall j :: 0 <= j < |s| ==> p[i + j] == s[j]
    ensures rest != "" ==> i + |s| < |p| && p[i + |s|] == rest[0]
  {
    assert p[i..][..|s|] == s && p[i..][|s|..] == rest;
    assert forall j :: 0 <= j < |s| ==> p[i + j] == p[i..][j];
    assert rest != "" ==> p[i + |s|] == p[i..][|s|];
  }

  lemma ScanPrintedText(p: string, i: nat, ps: seq<Piece>)
    requires i <= |p| && p[i..] == Render(ps) && Printable(ps) && ps != [] && ps[0].Text?
    ensures i + |ps[0].chars| <= |p| && p[i + |ps[0].chars|..] == Render(ps[1..])
    ensures Scan(p, i, "") == Scan(p, i + |ps[0].chars|, ps[0].chars)
  {
    hide Scan, TurnAt;
    var s, rest := ps[0].chars, ps[1..];
    assert PrintableText(s, rest) && Printable(rest) && Render(ps) == s + Render(rest);
    if rest != [] {
      PrintedStart(rest);
    }
    hide Render, Printable;
    PrintedTextPlace(p, i, s, Render(rest));
    PrintedText(p, i, "", s);
    assert "" + s == s;
  }

  // One printed directive, and the turn that reads it.
  lemma ScanPrintedDirective(p: string, i: nat, ps: seq<Piece>, pending: string)
    requires i <= |p| && p[i..] == Render(ps) && Printable(ps) && ps != [] && ps[0].Directive?
    ensures i + |RenderPiece(ps[0])| <= |p| && p[i + |RenderPiece(ps[0])|..] == Render(ps[1..])
    ensures Scan(p, i, pending) == Flush(pending) + [ps[0]] + Scan(p, i + |RenderPiece(ps[0])|, "")
  {
    hide *;
    PrintedDirective(p, i, ps, pending);
    ScanStep(p, i, pending);
  }

  lemma {:induction false} ParsePrinted(p: string, i: nat, ps: seq<Piece>)
    requires i <= |p| && p[i..] == Render(ps) && Printable(ps)
    ensures Scan(p, i, "") == ps
    decreases |ps|
  {
    hide TurnAt, RenderPiece;
    if ps == [] {
    } else if ps[0].Directive? {
      ScanPrintedDirective(p, i, ps, "");
      ParsePrinted(p, i + |RenderPiece(ps[0])|, ps[1..]);
      hide Scan;
      assert ps == Flush("") + [ps[0]] + ps[1..];
    } else {
      var s, rest := ps[0].chars, ps[1..];
      ScanPrintedText(p, i, ps);
      if rest != [] {
        ScanPrintedDirective(p, i + |s|, rest, s);
        ParsePrinted(p, i + |s| + |RenderPiece(rest[0])|, rest[1..]);
        hide Scan;
        assert ps == Flush(s) + [rest[0]] + rest[1..];
      }
    }
  }

  // Parsing undoes printing, for every list of pieces that can be printed unambiguously.
  lemma ParseUndoesPrint(ps: seq<Piece>)
    requires Printable(ps)
    ensures Pieces(Render(ps)) == ps
  {
    assert Render(ps)[0..] == Render(ps);
    ParsePrinted(Render(ps), 0, ps);
  }

  // The pending text of a scan that meets no error has the shape of printable text.
  predicate PendingOk(p: string, i: nat, pending: string)
    requires i <= |p|
  {
    && (forall j, k :: 0 <= j < k < |pending| && pending[j] == '%' ==> pending[k] == '%')
    && (pending != "" && pending[|pending| - 1] == '%' ==> i < |p| && p[i] == '%')
  }

  lemma PendingStaysOk(p: string, i: nat, pending: string)
    requires i < |p| && PendingOk(p, i, pending)
    ensures var t := TurnAt(p, i, pending); t.out == [] ==> PendingOk(p, t.next, t.pending)
    ensures var t := TurnAt(p, i, pending); t.out != [] && Clean(t.out) ==> t.pending == ""
  {
  }

  lemma FlushPrintable(p: string, i: nat, pending: string, ps: seq<Piece>)
    requires i <= |p| && PendingOk(p, i, pending)
    requires ps != [] && ps[0].Directive? && Printable(ps)
    ensures Printable(Flush(pending) + ps)
  {
    var all := Flush(pending) + ps;
    assert all[|Flush(pending)|..] == ps;
  }

  // What ends a bare directive is still the first character of what is scanned next.
  lemma {:induction false} ScanStart(p: string, i: nat, pending: string)
    requires i <= |p| && Scan(p, i, pending) != [] && Scan(p, i, pending)[0].Text?
    ensures pending + p[i..] != ""
    ensures var first := Scan(p, i, pending)[0].chars; first != "" && first[0] == (pending + p[i..])[0]
    decreases |p| - i
  {
    if i < |p| {
      var t := TurnAt(p, i, pending);
      if t.out == [] {
        ScanStart(p, t.next, t.pending);
        assert t.pending == pending + [p[i]];
        assert pending + p[i..] == t.pending + p[t.next..];
      }
    }
  }

  lemma ScannedName(p: string, i: nat)
    requires i < |p| && DirectiveAt(p, i).Complete?
    ensures var d := DirectiveAt(p, i).piece;
            && (forall j :: 0 <= j < |d.name| ==> NameChar(d.name[j]))
            && (if d.braced then '}' !in d.fmt else d.fmt == "")
  {
    var k := NameEnd(p, i + 1);
    NameEndSplits(p, i + 1);
    if k < |p| {
      CloseAtSplits(p, k + 1);
    }
  }

  lemma DirectivePrintable(p: string, i: nat, rest: seq<Piece>)
    requires i < |p| && p[i] == '%' && !(i + 1 < |p| && p[i + 1] == '%') && DirectiveAt(p, i).Complete?
    requires rest == Scan(p, DirectiveAt(p, i).next, "") && Clean(rest) && Printable(rest)
    ensures Printable([DirectiveAt(p, i).piece] + rest)
  {
    var Complete(d, next) := DirectiveAt(p, i);
    ScannedName(p, i);
    assert ([d] + rest)[1..] == rest;
    if !d.braced && rest != [] {
      NameEndSplits(p, i + 1);
      assert rest[0] in rest;
      assert next < |p|;
      assert d.name == p[i + 1..next];
      if rest[0].Text? {
        ScanStart(p, next, "");
        assert ("" + p[next..])[0] == p[next];
      } else {
        BareBeforeDirective(p, next);
      }
    }
  }

  lemma BareBeforeDirective(p: string, i: nat)
    requires i < |p| && Scan(p, i, "") != [] && Scan(p, i, "")[0].Directive?
    ensures p[i] == '%'
  {
    if p[i] != '%' {
      assert TurnAt(p, i, "") == Turn([], i + 1, [p[i]]);
      assert [] + Scan(p, i + 1, [p[i]]) == Scan(p, i + 1, [p[i]]);
      ScanKeepsPending(p, i + 1, [p[i]]);
    }
  }

  lemma {:induction false} ScanKeepsPending(p: string, i: nat, pending: string)
    requires i <= |p| && pending != ""
    ensures Scan(p, i, pending) != [] && !Scan(p, i, pending)[0].Directive?
    decreases |p| - i
  {
    if i < |p| {
      var t := TurnAt(p, i, pending);
      if t.out == [] {
        ScanKeepsPending(p, t.next, t.pending);
      }
    }
  }

  lemma {:induction false} ScanIsPrintable(p: string, i: nat, pending: string)
    requires i <= |p| && Clean(Scan(p, i, pending)) && PendingOk(p, i, pending)
    ensures Printable(Scan(p, i, pending))
    decreases |p| - i
  {
    if i == |p| {
      EndIsPrintable(p, pending);
    } else {
      var t := TurnAt(p, i, pending);
      var rest := Scan(p, t.next, t.pending);
      hide Scan, Printable, TurnAt;
      ScanStep(p, i, pending);
      PendingStaysOk(p, i, pending);
      CleanConcat(t.out, rest);
      hide PendingOk, Clean;
      ScanIsPrintable(p, t.next, t.pending);
      TurnIsPrintable(p, i, pending, rest);
    }
  }

  lemma EndIsPrintable(p: string, pending: string)
    requires PendingOk(p, |p|, pending)
    ensures Printable(Scan(p, |p|, pending))
  {
    assert pending != "" ==> [Text(pending)][1..] == [];
  }

  // A text turn adds nothing; a directive turn adds the pending text and a directive.
  lemma TurnIsPrintable(p: string, i: nat, pending: string, rest: seq<Piece>)
    requires i < |p| && PendingOk(p, i, pending)
    requires var t := TurnAt(p, i, pending); rest == Scan(p, t.next, t.pending) && Clean(t.out) && Clean(rest)
    requires Printable(rest)
    ensures Printable(TurnAt(p, i, pending).out + rest)
  {
    hide Scan, Printable;
    var t := TurnAt(p, i, pending);
    if t.out == [] {
      assert t.out + rest == rest;
    } else {
      assert Bad in [Bad] && DirectiveAt(p, i).Complete?;
      var d := DirectiveAt(p, i).piece;
      assert t == Turn(Flush(pending) + [d], DirectiveAt(p, i).next, "");
      assert t.out + rest == Flush(pending) + ([d] + rest);
      hide TurnAt, PendingOk, Clean, Flush;
      DirectivePrintable(p, i, rest);
      assert ([d] + rest)[0] == d;
      FlushPrintable(p, i, pending, [d] + rest);
    }
  }

  lemma {:induction false} PrintableIsClean(ps: seq<Piece>)
    requires Printable(ps)
    ensures Clean(ps)
  {
    if ps != [] {
      PrintableIsClean(ps[1..]);
    }
  }

  // The printable lists are exactly the lists that scanning a clean pattern can produce.
  lemma PrintableIsImage(ps: seq<Piece>)
    ensures Printable(ps) <==> Clean(ps) && exists p :: Pieces(p) == ps
  {
    if Printable(ps) {
      ParseUndoesPrint(ps);
      PrintableIsClean(ps);
    }
    if Clean(ps) && exists p :: Pieces(p) == ps {
      var p :| Pieces(p) == ps;
      ScanIsPrintable(p, 0, "");
    }
  }

  // ---------- parsing composes ----------

  predicate EndsBraced(ps: seq<Piece>) {
    ps != [] && ps[|ps| - 1].Directive? && ps[|ps| - 1].braced
  }

  // A directive that does not end the pattern, or ends it with its brace, reads the same
  // whatever is appended.
  lemma DirectivePrefix(p: string, q: string, i: nat)
    requires i < |p| && DirectiveAt(p, i).Complete?
    requires DirectiveAt(p, i).next < |p| || DirectiveAt(p, i).piece.braced
    ensures DirectiveAt(p + q, i) == DirectiveAt(p, i)
  {
    var k := NameEnd(p, i + 1);
    NameEndSplits(p, i + 1);
    NameEndIs(p + q, i + 1, k);
    assert (p + q)[i + 1..k] == p[i + 1..k];
    if p[k] == '{' {
      var m := CloseAt(p, k + 1);
      CloseAtSplits(p, k + 1);
      CloseAtIs(p + q, k + 1, m);
      assert (p + q)[k + 1..m] == p[k + 1..m];
    }
  }

  // Reading the second of two joined patterns does not depend on the first.
  lemma {:induction false} NameEndShift(p: string, q: string, j: nat)
    requires j <= |q|
    ensures NameEnd(p + q, |p| + j) == |p| + NameEnd(q, j)
    decreases |q| - j
  {
    if j < |q| {
      assert (p + q)[|p| + j] == q[j];
      NameEndShift(p, q, j + 1);
    }
  }

  lemma {:induction false} CloseAtShift(p: string, q: string, j: nat)
    requires j <= |q|
    ensures CloseAt(p + q, |p| + j) == |p| + CloseAt(q, j)
    decreases |q| - j
  {
    if j < |q| {
      assert (p + q)[|p| + j] == q[j];
      CloseAtShift(p, q, j + 1);
    }
  }

  lemma SliceShift(p: string, q: string, a: nat, b: nat)
    requires a <= b <= |q|
    ensures (p + q)[|p| + a..|p| + b] == q[a..b]
  {
  }

  lemma DirectiveShift(p: string, q: string, j: nat)
    requires j < |q|
    ensures DirectiveAt(p + q, |p| + j) ==
            match DirectiveAt(q, j)
            case Complete(d, next) => Complete(d, |p| + next)
            case Unterminated => Unterminated
  {
    hide NameEnd, CloseAt;
    var k := NameEnd(q, j + 1);
    NameEndShift(p, q, j + 1);
    SliceShift(p, q, j + 1, k);
    if k < |q| {
      assert (p + q)[|p| + k] == q[k];
      CloseAtShift(p, q, k + 1);
      SliceShift(p, q, k + 1, CloseAt(q, k + 1));
    }
  }

  lemma TurnShift(p: string, q: string, j: nat, pending: string)
    requires j < |q|
    ensures var t := TurnAt(q, j, pending);
            TurnAt(p + q, |p| + j, pending) == Turn(t.out, |p| + t.next, t.pending)
  {
    DirectiveShift(p, q, j);
    hide DirectiveAt;
    assert (p + q)[|p| + j] == q[j];
    if j + 1 < |q| {
      assert (p + q)[|p| + (j + 1)] == q[j + 1];
    }
  }

  lemma {:induction false} ScanShift(p: string, q: string, j: nat, pending: string)
    requires j <= |q|
    ensures Scan(p + q, |p| + j, pending) == Scan(q, j, pending)
    decreases |q| - j
  {
    hide *;
    if j == |q| {
      ScanEnd(q, pending);
      ScanEnd(p + q, pending);
    } else {
      var t := TurnAt(q, j, pending);
      TurnShift(p, q, j, pending);
      ScanStep(q, j, pending);
      ScanStep(p + q, |p| + j, pending);
      ScanShift(p, q, t.next, t.pending);
    }
  }

  lemma {:induction false} ScanNonEmpty(p: string, i: nat, pending: string)
    requires i <= |p| && (i < |p| || pending != "")
    ensures Scan(p, i, pending) != []
    decreases |p| - i
  {
    if i < |p| {
      var t := TurnAt(p, i, pending);
      hide TurnAt, Scan;
      ScanStep(p, i, pending);
      if t.out == [] {
        EmptyTurn(p, i, pending);
        ScanNonEmpty(p, t.next, t.pending);
      }
    }
  }

  lemma EmptyTurn(p: string, i: nat, pending: string)
    requires i < |p| && TurnAt(p, i, pending).out == []
    ensures TurnAt(p, i, pending).pending != ""
  {
  }

  // The turns of a clean pattern that ends in a brace do not see what is appended to it.
  lemma TurnPrefix(p: string, q: string, i: nat, pending: string)
    requires i < |p| && Clean(Scan(p, i, pending)) && EndsBraced(Scan(p, i, pending))
    ensures var t := TurnAt(p, i, pending);
            && TurnAt(p + q, i, pending) == t
            && Clean(Scan(p, t.next, t.pending))
            && ((t.next == |p| && t.pending == "") || EndsBraced(Scan(p, t.next, t.pending)))
  {
    var t := TurnAt(p, i, pending);
    var rest := Scan(p, t.next, t.pending);
    var all := t.out + rest;
    CleanConcat(t.out, rest);
    if rest != [] {
      assert all[|all| - 1] == rest[|rest| - 1];
    } else if t.next < |p| {
      ScanNonEmpty(p, t.next, t.pending);
    }
    if t.out != [] {
      DirectivePrefix(p, q, i);
    }
  }

  lemma {:induction false} ScanComposes(p: string, q: string, i: nat, pending: string)
    requires i <= |p| && Clean(Scan(p, i, pending))
    requires (i == |p| && pending == "") || EndsBraced(Scan(p, i, pending))
    ensures Scan(p + q, i, pending) == Scan(p, i, pending) + Pieces(q)
    decreases |p| - i
  {
    hide TurnAt;
    if i == |p| {
      ScanShift(p, q, 0, pending);
      assert [] + Pieces(q) == Pieces(q);
    } else {
      var t := TurnAt(p, i, pending);
      TurnPrefix(p, q, i, pending);
      ScanComposes(p, q, t.next, t.pending);
      assert t.out + (Scan(p, t.next, t.pending) + Pieces(q)) == t.out + Scan(p, t.next, t.pending) + Pieces(q);
    }
  }

  // A clean pattern that ends in a closed brace can be extended by any other pattern.
  lemma ParsingComposes(p: string, q: string)
    requires Clean(Pieces(p)) && EndsBraced(Pieces(p))
    ensures Pieces(p + q) == Pieces(p) + Pieces(q)
  {
    ScanComposes(p, q, 0, "");
  }

  // ---------- from tokens to output ----------

  datatype FormatItem =
    | StringItem(text: string)
    | ValueItem(name: string, fmt: string)     // date, thread, level, message, ...

  predicate KnownDirective(name: string) {
    name in ["d", "t", "N", "f", "l", "T", "n", "p", "c", "m", "F"]
  }

  function ItemOf(t: Token): FormatItem {
    if t.kind == 0 then StringItem(t.str)
    else if KnownDirective(t.str) then ValueItem(t.str, t.fmt)
    else StringItem("<<error_format %" + t.str + ">>")
  }

  function Items(ps: seq<Piece>): (items: seq<FormatItem>)
    ensures |items| == |ps|
  {
    seq(|ps|, j requires 0 <= j < |ps| => ItemOf(TokenOf(ps[j])))
  }

  predicate WellFormed(piece: Piece) {
    match piece
    case Text(_) => true
    case Directive(name, _, _) => KnownDirective(name)
    case Bad => false
  }

  // `render` stands for the item classes: what a value item writes for one log event.
  function ItemText(item: FormatItem, render: (string, string) -> string): string {
    match item
    case StringItem(text) => text
    case ValueItem(name, fmt) => render(name, fmt)
  }

  function Output(items: seq<FormatItem>, render: (string, string) -> string): string {
    if items == [] then "" else Output(items[..|items| - 1], render) + ItemText(items[|items| - 1], render)
  }

  predicate Erroneous(ps: seq<Piece>) {
    exists j :: 0 <= j < |ps| && !WellFormed(ps[j])
  }

  lemma ErroneousIff(ps: seq<Piece>)
    ensures Erroneous(ps) <==> exists j :: 0 <= j < |ps| && !WellFormed(ps[j])
  {
  }

  lemma BadIsErroneous(ps: seq<Piece>)
    requires !Clean(ps)
    ensures Erroneous(ps)
  {
    var j :| 0 <= j < |ps| && ps[j] == Bad;
    assert !WellFormed(ps[j]);
  }

  class LogFormatter {
    const pattern: string
    var items: seq<FormatItem>
    var error: bool            // the source never clears it: init() only ever sets it

    constructor (pattern: string)
      ensures this.pattern == pattern && items == Items(Pieces(pattern))
      ensures Erroneous(Pieces(pattern)) ==> error
    {
      this.pattern := pattern;
      this.items := [];
      new;
      Init();
    }

    method Init()
      modifies this
      ensures items == old(items) + Items(Pieces(pattern))
      ensures error == (old(error) || Erroneous(Pieces(pattern)))
    {
      var vec, bad := Tokenize(pattern);
      ghost var ps := Pieces(pattern);
      error := error || bad;
      if bad {
        BadIsErroneous(ps);
      }
      assert !bad ==> forall j :: 0 <= j < |ps| ==> ps[j] != Bad;
      hide Pieces, Clean, Erroneous;
      for i := 0 to |vec|
        invariant items == old(items) + Items(ps)[..i]
        invariant error == (old(error) || bad || exists j :: 0 <= j < i && !WellFormed(ps[j]))
      {
        assert Items(ps)[..i + 1] == Items(ps)[..i] + [ItemOf(vec[i])];
        if vec[i].kind == 0 {
          items := items + [StringItem(vec[i].str)];
          assert WellFormed(ps[i]) || bad;
        } else if KnownDirective(vec[i].str) {
          items := items + [ValueItem(vec[i].str, vec[i].fmt)];
        } else {
          items := items + [StringItem("<<error_format %" + vec[i].str + ">>")];
          error := true;
          assert !WellFormed(ps[i]);
        }
      }
      assert Items(ps)[..|vec|] == Items(ps);
      ErroneousIff(ps);
    }

    method Format(render: (string, string) -> string) returns (out: string)
      ensures out == Output(items, render)
    {
      out := "";
      for i := 0 to |items|
        invariant out == Output(items[..i], render)
      {
        out := out + ItemText(items[i], render);
        assert items[..i + 1][..i] == items[..i];
      }
      assert items[..|items|] == items;
    }
  }

  lemma {:induction false} OutputConcat(a: seq<FormatItem>, b: seq<FormatItem>, render: (string, string) -> string)
    ensures Output(a + b, render) == Output(a, render) + Output(b, render)
  {
    hide ItemText;
    if b == [] {
      assert a + b == a;
    } else {
      assert (a + b)[..|a + b| - 1] == a + b[..|b| - 1];
      OutputConcat(a, b[..|b| - 1], render);
      assert Output(a + b, render) == Output(a + b[..|b| - 1], render) + ItemText(b[|b| - 1], render);
    }
  }

  lemma ItemsConcat(a: seq<Piece>, b: seq<Piece>)
    ensures Items(a + b) == Items(a) + Items(b)
  {
    hide ItemOf, TokenOf;
  }

  // Formatting with p + q writes what p writes and then what q writes.
  lemma FormattingComposes(p: string, q: string, render: (string, string) -> string)
    requires Clean(Pieces(p)) && EndsBraced(Pieces(p))
    ensures Output(Items(Pieces(p + q)), render) ==
            Output(Items(Pieces(p)), render) + Output(Items(Pieces(q)), render)
  {
    hide *;
    ParsingComposes(p, q);
    ItemsConcat(Pieces(p), Pieces(q));
    OutputConcat(Items(Pieces(p)), Items(Pieces(q)), render);
  }
}
