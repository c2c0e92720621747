/** Which patterns compile without an error, and how compiling relates to printing. */
module PatternGrammar {
  import opened Scripts
  import opened Patterns

  /** `text`, `%x`, `%x{fmt}`. */
  datatype Piece = Lit(str: string) | Bare(x: char) | Braced(x: char, fmt: string)

  function Show(piece: Piece): string {
    match piece
    case Lit(str) => str
    case Bare(x) => ['%', x]
    case Braced(x, fmt) => ['%', x, '{'] + fmt + ['}']
  }

  function ShowAll(g: seq<Piece>): string {
    if g == [] then "" else Show(g[0]) + ShowAll(g[1..])
  }

  predicate PieceOk(piece: Piece) {
    match piece
    case Lit(str) => str != "" && '%' !in str
    case Bare(x) => x in DIRECTIVES
    case Braced(x, fmt) => x in DIRECTIVES && '}' !in fmt
  }

  /** A letter or a brace right after `%x` would be read as part of the directive. */
  predicate SticksToName(s: string) { s != "" && (IsNameChar(s[0]) || s[0] == '{') }

  predicate FollowOk(piece: Piece, rest: seq<Piece>) {
    match piece
    case Lit(_) => rest == [] || !rest[0].Lit?
    case Bare(_) => !SticksToName(ShowAll(rest))
    case Braced(_, _) => true
  }

  predicate WellFormed(g: seq<Piece>) {
    g != [] ==> PieceOk(g[0]) && FollowOk(g[0], g[1..]) && WellFormed(g[1..])
  }

  function PartOf(piece: Piece): Part {
    match piece
    case Lit(str) => Part(str, "", false)
    case Bare(x) => Part([x], "", true)
    case Braced(x, fmt) => Part([x], fmt, true)
  }

  function PartsOf(g: seq<Piece>): seq<Part> { seq(|g|, i requires 0 <= i < |g| => PartOf(g[i])) }

  function ItemFor(piece: Piece): Item {
    match piece
    case Lit(str) => Text(str)
    case Bare(x) => Format([x], "")
    case Braced(x, fmt) => Format([x], fmt)
  }

  function Meaning(g: seq<Piece>): seq<Item> { seq(|g|, i requires 0 <= i < |g| => ItemFor(g[i])) }

  // Every well-formed list of pieces is read back

  lemma {:induction false} ParseLit(str: string, rest: string, pending: string)
    requires '%' !in str
    ensures Parse(str + rest, pending) == Parse(rest, pending + str)
    decreases |str|
  {
    if str == "" {
      assert str + rest == rest && pending + str == pending;
    } else {
      assert (str + rest)[1..] == str[1..] + rest;
      ParseLit(str[1..], rest, pending + [str[0]]);
      assert pending + [str[0]] + str[1..] == pending + str;
    }
  }

  lemma {:induction false} DirectivesAreLetters(x: char)
    requires x in DIRECTIVES
    ensures IsAlpha(x)
  {}

  lemma {:induction false} ReadBarePiece(x: char, rest: string)
    requires IsAlpha(x) && !SticksToName(rest)
    ensures ReadDirective(['%', x] + rest) == Some(Directive([x], "", 2))
  {
    var q := ['%', x] + rest;
    ReadBare(q, 2);
    assert q[1..2] == [x];
  }

  lemma {:induction false} ReadBracedPiece(x: char, fmt: string, rest: string)
    requires IsAlpha(x) && '}' !in fmt
    ensures ReadDirective(Show(Braced(x, fmt)) + rest) == Some(Directive([x], fmt, 4 + |fmt|))
  {
    var q := Show(Braced(x, fmt)) + rest;
    var close := 3 + |fmt|;
    assert forall j :: 3 <= j < close ==> q[j] == fmt[j - 3];
    ReadBraced(q, 2, close);
    assert q[1..2] == [x];
    assert q[3..close] == fmt;
  }

  lemma {:induction false} ReadPiece(piece: Piece, rest: string)
    requires PieceOk(piece) && !piece.Lit? && FollowsOn(piece, rest)
    ensures ReadDirective(Show(piece) + rest) == Some(Directive([piece.x], PartOf(piece).fmt, |Show(piece)|))
    ensures IsAlpha(piece.x)
  {
    DirectivesAreLetters(piece.x);
    match piece
    case Bare(x) => ReadBarePiece(x, rest);
    case Braced(x, fmt) => ReadBracedPiece(x, fmt, rest);
  }

  predicate FollowsOn(piece: Piece, rest: string) { piece.Bare? ==> !SticksToName(rest) }

  lemma {:induction false} ParsePiece(piece: Piece, rest: string, pending: string)
    requires PieceOk(piece) && !piece.Lit? && FollowsOn(piece, rest)
    ensures Parse(Show(piece) + rest, pending) == Prepend(Flush(pending) + [PartOf(piece)], Parse(rest, ""))
  {
    var q := Show(piece) + rest;
    ReadPiece(piece, rest);
    assert q[|Show(piece)|..] == rest;
    assert q[0] == '%' && q[1] == piece.x;
  }

  lemma {:induction false} PartsAfterText(g: seq<Piece>)
    requires g != [] && PieceOk(g[0]) && g[0].Lit?
    ensures Flush("") + PartsOf(g) == Flush(g[0].str) + PartsOf(g[1..])
  {
    assert Flush("") + PartsOf(g) == [PartOf(g[0])] + PartsOf(g[1..]);
  }

  lemma {:induction false} ParseShown(g: seq<Piece>, pending: string)
    requires WellFormed(g) && (pending == "" || g == [] || !g[0].Lit?)
    ensures Parse(ShowAll(g), pending) == Parsed(Flush(pending) + PartsOf(g), false)
    decreases |g|
  {
    if g == [] {
    } else if g[0].Lit? {
      var str, rest := g[0].str, g[1..];
      ParseLit(str, ShowAll(rest), "");
      assert "" + str == str;
      ParseShown(rest, str);
      PartsAfterText(g);
    } else {
      var rest := g[1..];
      ParsePiece(g[0], ShowAll(rest), pending);
      ParseShown(rest, "");
      PartsAppend(Flush(pending), g);
    }
  }

  lemma {:induction false} PartsAppend(front: seq<Part>, g: seq<Piece>)
    requires g != []
    ensures front + [PartOf(g[0])] + (Flush("") + PartsOf(g[1..])) == front + PartsOf(g)
  {
    assert PartsOf(g) == [PartOf(g[0])] + PartsOf(g[1..]);
  }

  lemma {:induction false} AllPiecesOk(g: seq<Piece>)
    requires WellFormed(g)
    ensures forall i :: 0 <= i < |g| ==> PieceOk(g[i])
    decreases |g|
  {
    if g != [] {
      AllPiecesOk(g[1..]);
      assert forall i :: 1 <= i < |g| ==> g[i] == g[1..][i - 1];
    }
  }

  /** Compiling undoes printing. */
  lemma {:induction false} CompileShown(g: seq<Piece>)
    requires WellFormed(g)
    ensures Compile(ShowAll(g)) == Compiled(Meaning(g), false)
  {
    ParseShown(g, "");
    AllPiecesOk(g);
    assert [] + PartsOf(g) == PartsOf(g);
    ItemsOfShown(g);
  }

  lemma {:induction false} ItemsOfShown(g: seq<Piece>)
    requires forall i :: 0 <= i < |g| ==> PieceOk(g[i])
    ensures ItemsOf(PartsOf(g)) == Meaning(g) && AllKnown(PartsOf(g))
  {
    forall i | 0 <= i < |g| ensures ItemOf(PartsOf(g)[i]) == ItemFor(g[i]) && Known(PartsOf(g)[i]) {
      assert PieceOk(g[i]);
    }
  }

  // Every pattern without an error is one

  lemma {:induction false} DirectiveBack(p: string, d: Directive) returns (piece: Piece)
    requires p != "" && p[0] == '%' && ReadDirective(p) == Some(d) && InTable(d.name)
    ensures PieceOk(piece) && !piece.Lit? && FollowsOn(piece, p[d.length..])
    ensures Show(piece) + p[d.length..] == p
    ensures |p| > 1 && p[1] != '%'
  {
    var n := NameLength(p[1..]);
    assert n == 1 && d.name == [p[1]];
    assert IsNameChar(p[1..][0]);
    if 2 < |p| && p[2] == '{' {
      piece := Braced(p[1], d.fmt);
      assert p == p[..3] + p[3..3 + CloseAt(p[3..])] + ['}'] + p[d.length..];
    } else {
      piece := Bare(p[1]);
      assert 2 < |p| ==> p[2] == p[1..][1];
    }
  }

  lemma {:induction false} Recover(p: string, pending: string) returns (g: seq<Piece>)
    requires '%' !in pending && !Parse(p, pending).error && AllKnown(Parse(p, pending).parts)
    ensures WellFormed(g) && ShowAll(g) == pending + p
    decreases |p|
  {
    if p == "" {
      g := if pending == "" then [] else [Lit(pending)];
    } else if p[0] != '%' {
      g := Recover(p[1..], pending + [p[0]]);
      assert pending + [p[0]] + p[1..] == pending + p;
    } else {
      g := RecoverDirective(p, pending);
    }
  }

  lemma {:induction false} RecoverDirective(p: string, pending: string) returns (g: seq<Piece>)
    requires p != "" && p[0] == '%'
    requires '%' !in pending && !Parse(p, pending).error && AllKnown(Parse(p, pending).parts)
    ensures WellFormed(g) && ShowAll(g) == pending + p
    decreases |p|, 0
  {
    var d := ReadDirective(p).value;
    var rest := p[d.length..];
    KnownSplit(Flush(Kept(p, pending)), Part(d.name, d.fmt, true), Parse(rest, "").parts);
    var piece := DirectiveBack(p, d);
    var g1 := Recover(rest, "");
    g := JoinPiece(pending, piece, rest, g1);
  }

  lemma {:induction false} KnownSplit(front: seq<Part>, part: Part, tail: seq<Part>)
    requires AllKnown((front + [part]) + tail)
    ensures Known(part) && AllKnown(tail)
  {
    var all := (front + [part]) + tail;
    assert Known(all[|front|]);
    forall i | 0 <= i < |tail| ensures Known(tail[i]) {
      assert all[|front| + 1 + i] == tail[i];
    }
  }

  lemma {:induction false} JoinPiece(pending: string, piece: Piece, rest: string, g1: seq<Piece>)
    returns (g: seq<Piece>)
    requires '%' !in pending && PieceOk(piece) && !piece.Lit? && FollowsOn(piece, rest)
    requires WellFormed(g1) && ShowAll(g1) == "" + rest
    ensures WellFormed(g) && ShowAll(g) == pending + (Show(piece) + rest)
  {
    assert "" + rest == rest;
    var g2 := [piece] + g1;
    assert g2[1..] == g1;
    if pending == "" {
      g := g2;
      assert pending + (Show(piece) + rest) == Show(piece) + rest;
    } else {
      g := [Lit(pending)] + g2;
      assert g[1..] == g2;
    }
  }

  /** `m_error` stays false exactly for the patterns of the grammar. */
  lemma {:induction false} AcceptsExactly(p: string)
    ensures !Compile(p).error <==> exists g :: WellFormed(g) && ShowAll(g) == p
  {
    if !Compile(p).error {
      var g := Recover(p, "");
      assert "" + p == p;
    }
    forall g | WellFormed(g) && ShowAll(g) == p ensures !Compile(p).error {
      CompileShown(g);
    }
  }

  // Printing what was read

  function PrintItem(item: Item): string {
    match item
    case Text(str) => str
    case Format(name, fmt) => ['%'] + name + if fmt == "" then "" else ['{'] + fmt + ['}']
  }

  function Print(items: seq<Item>): string {
    if items == [] then "" else PrintItem(items[0]) + Print(items[1..])
  }

  /** The piece without its braces if they are empty. */
  function Bared(piece: Piece): Piece {
    if piece.Braced? && piece.fmt == "" then Bare(piece.x) else piece
  }

  function AllBared(g: seq<Piece>): seq<Piece> { seq(|g|, i requires 0 <= i < |g| => Bared(g[i])) }

  lemma {:induction false} PrintMeaning(g: seq<Piece>)
    ensures Print(Meaning(g)) == ShowAll(AllBared(g))
    decreases |g|
  {
    if g != [] {
      PrintMeaning(g[1..]);
      MeaningCons(g);
      PrintPiece(g[0]);
    }
  }

  lemma {:induction false} MeaningCons(g: seq<Piece>)
    requires g != []
    ensures Meaning(g) != [] && Meaning(g)[0] == ItemFor(g[0]) && Meaning(g)[1..] == Meaning(g[1..])
    ensures AllBared(g) != [] && AllBared(g)[0] == Bared(g[0]) && AllBared(g)[1..] == AllBared(g[1..])
  {}

  lemma {:induction false} PrintPiece(piece: Piece)
    ensures PrintItem(ItemFor(piece)) == Show(Bared(piece))
  {
    match piece
    case Lit(_) =>
    case Bare(x) => assert ['%'] + [x] + "" == ['%', x];
    case Braced(x, fmt) =>
      assert ['%'] + [x] + "" == ['%', x];
      assert ['%'] + [x] + (['{'] + fmt + ['}']) == ['%', x, '{'] + fmt + ['}'];
  }

  lemma {:induction false} MeaningBared(g: seq<Piece>)
    ensures Meaning(AllBared(g)) == Meaning(g)
  {}

  lemma {:induction false} BarePiece(piece: Piece)
    ensures |Show(Bared(piece))| <= |Show(piece)|
    ensures |Show(Bared(piece))| == |Show(piece)| ==> Bared(piece) == piece
  {}

  lemma {:induction false} BaredShorter(g: seq<Piece>)
    ensures |ShowAll(AllBared(g))| <= |ShowAll(g)|
    ensures |ShowAll(AllBared(g))| == |ShowAll(g)| ==> AllBared(g) == g
    decreases |g|
  {
    if g != [] {
      var h := AllBared(g);
      MeaningCons(g);
      BaredShorter(g[1..]);
      BarePiece(g[0]);
      assert |ShowAll(h)| == |Show(h[0])| + |ShowAll(h[1..])|;
      assert |ShowAll(g)| == |Show(g[0])| + |ShowAll(g[1..])|;
      assert h == [h[0]] + h[1..] && g == [g[0]] + g[1..];
    }
  }

  /** Two lists of pieces that mean the same differ only in empty braces. */
  lemma {:induction false} SameMeaning(g: seq<Piece>, h: seq<Piece>)
    requires Meaning(g) == Meaning(h)
    ensures AllBared(g) == AllBared(h)
  {
    assert |Meaning(g)| == |g| && |Meaning(h)| == |h|;
    forall i | 0 <= i < |g| ensures Bared(g[i]) == Bared(h[i]) {
      assert Meaning(g)[i] == ItemFor(g[i]) && Meaning(h)[i] == ItemFor(h[i]);
    }
  }

  /** For a pattern without an error, printing its items gives the pattern back with the empty braces
      left out; the pattern comes back unchanged exactly when it has none. */
  lemma {:induction false} PrintUndoesCompile(g: seq<Piece>)
    requires WellFormed(g)
    ensures Print(Compile(ShowAll(g)).items) == ShowAll(AllBared(g))
    ensures Print(Compile(ShowAll(g)).items) == ShowAll(g) <==> AllBared(g) == g
  {
    CompileShown(g);
    PrintMeaning(g);
    BaredShorter(g);
  }

  /** No empty braces stand between a directive and something that would stick to its name. */
  predicate BracesLoose(g: seq<Piece>) {
    g != [] ==> (g[0].Braced? && g[0].fmt == "" ==> !SticksToName(ShowAll(g[1..]))) && BracesLoose(g[1..])
  }

  lemma {:induction false} BaredSticks(g: seq<Piece>)
    requires WellFormed(g)
    ensures SticksToName(ShowAll(AllBared(g))) <==> SticksToName(ShowAll(g))
  {
    if g != [] {
      assert AllBared(g)[0] == Bared(g[0]);
      assert Show(Bared(g[0])) != "" && Show(Bared(g[0]))[0] == Show(g[0])[0];
    }
  }

  lemma {:induction false} BaredWellFormed(g: seq<Piece>)
    requires WellFormed(g)
    ensures WellFormed(AllBared(g)) <==> BracesLoose(g)
    decreases |g|
  {
    if g != [] {
      BaredWellFormed(g[1..]);
      BaredSticks(g[1..]);
      assert AllBared(g)[1..] == AllBared(g[1..]);
      assert g[1..] != [] ==> AllBared(g[1..])[0] == Bared(g[1..][0]);
    }
  }

  /** What is printed compiles to the same items exactly when no dropped `{}` was followed by a letter
      or a brace. */
  lemma {:induction false} PrintedCompilesBackIff(g: seq<Piece>)
    requires WellFormed(g)
    ensures Compile(Print(Meaning(g))) == Compiled(Meaning(g), false) <==> BracesLoose(g)
  {
    var h := AllBared(g);
    BaredWellFormed(g);
    PrintMeaning(g);
    MeaningBared(g);
    if WellFormed(h) {
      CompileShown(h);
    }
    if Compile(ShowAll(h)) == Compiled(Meaning(h), false) {
      var k := Recover(ShowAll(h), "");
      assert "" + ShowAll(h) == ShowAll(h);
      CompileShown(k);
      SameMeaning(k, h);
      assert AllBared(h) == h;
      BaredShorter(k);
    }
  }

  /** The items of a token list are read back from their print, for every token list in which literals
      are non-empty, `%`-free and not adjacent, names are known, formats have no `}`, and no letter or
      brace comes right after a directive without a format. */
  lemma {:induction false} ParserUndoesPrinter(g: seq<Piece>)
    requires WellFormed(g) && AllBared(g) == g
    ensures Compile(Print(Meaning(g))) == Compiled(Meaning(g), false)
  {
    CompileShown(g);
    PrintMeaning(g);
  }

  // Two patterns the comments promise more about

  /** `%%` is not an escape: after `%`-free text it always ends in an error. */
  lemma {:induction false} DoublePercentFails(text: string, rest: string)
    requires '%' !in text
    ensures Compile(text + "%%" + rest).error
  {
    var p := "%%" + rest;
    assert text + "%%" + rest == text + p;
    ParseLit(text, p, "");
    ReadBareEmpty(p);
    var r := Parse(p, "" + text);
    var front := Flush(Kept(p, "" + text)) + [Part("", "", true)];
    assert r.parts == front + Parse(p[1..], "").parts;
    assert r.parts[|front| - 1] == Part("", "", true);
    assert !Known(r.parts[|front| - 1]);
  }

  lemma {:induction false} ReadBareEmpty(p: string)
    requires |p| > 1 && p[1] == '%'
    ensures ReadDirective(p) == Some(Directive("", "", 1))
  {
    ReadBare(p, 1);
    assert p[1..1] == "";
  }

  /** An unclosed brace: the error item comes before the text that precedes it, and everything goes on as
      if the `%` had not been there, other directives included. */
  lemma {:induction false} UnclosedBrace(text: string, name: string, rest: string)
    requires '%' !in text && '}' !in rest
    requires forall i :: 0 <= i < |name| ==> IsNameChar(name[i])
    ensures var tail := name + "{" + rest;
      Parse(text + ("%" + tail), "")
      == Prepend([Part(PATTERN_ERROR, "", false)], Parse(text + tail, "")).(error := true)
  {
    var tail := name + "{" + rest;
    var p := "%" + tail;
    ParseLit(text, p, "");
    ParseLit(text, tail, "");
    ReadUnclosed(name, rest);
    assert "" + text == text;
    assert tail[0] == if name == "" then '{' else name[0];
    ParseUnclosed(tail, text);
  }

  lemma {:induction false} ParseUnclosed(tail: string, text: string)
    requires tail != "" && tail[0] != '%' && ReadDirective("%" + tail) == None
    ensures Parse("%" + tail, text) == Prepend([Part(PATTERN_ERROR, "", false)], Parse(tail, text)).(error := true)
  {
    var p := "%" + tail;
    assert p[1..] == tail && p[1] == tail[0];
    assert Kept(p, text) == text;
  }

  /** With no other directive after it, all of that is one piece of text. */
  lemma {:induction false} UnclosedBraceThenText(text: string, name: string, rest: string)
    requires '%' !in text && '%' !in rest && '}' !in rest
    requires forall i :: 0 <= i < |name| ==> IsNameChar(name[i])
    ensures Parse(text + ("%" + (name + "{" + rest)), "")
      == Parsed([Part(PATTERN_ERROR, "", false), Part(text + (name + "{" + rest), "", false)], true)
  {
    UnclosedBrace(text, name, rest);
    var all := text + (name + "{" + rest);
    ParseLit(all, "", "");
    assert all + "" == all && "" + all == all;
  }

  lemma {:induction false} ReadUnclosed(name: string, rest: string)
    requires '}' !in rest && forall i :: 0 <= i < |name| ==> IsNameChar(name[i])
    ensures ReadDirective("%" + (name + "{" + rest)) == None
  {
    var p := "%" + (name + "{" + rest);
    assert forall j :: 1 <= j < 1 + |name| ==> p[j] == name[j - 1];
    assert forall j :: 1 + |name| < j < |p| ==> p[j] == rest[j - |name| - 2];
    ReadBraced(p, 1 + |name|, |p|);
  }
}
