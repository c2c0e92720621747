/** What a log pattern means: a tokenizer by recursion on the rest of the pattern. */
module Patterns {
  import opened Scripts

  /** One tuple of `vec`: (str, fmt, 1) for a directive, (str, "", 0) for a literal. */
  datatype Part = Part(str: string, fmt: string, isDirective: bool)

  datatype Item = Text(str: string) | Format(name: string, fmt: string)

  datatype Parsed = Parsed(parts: seq<Part>, error: bool)

  datatype Compiled = Compiled(items: seq<Item>, error: bool)

  const PATTERN_ERROR := "<<pattern_error>>"

  /** The keys of the table of format items are all one letter long. */
  const DIRECTIVES: set<char> := {'m', 'p', 'r', 'c', 't', 'n', 'd', 'f', 'l', 'T', 'F', 'N'}

  predicate InTable(name: string) { |name| == 1 && name[0] in DIRECTIVES }

  predicate IsAlpha(c: char) { 'a' <= c <= 'z' || 'A' <= c <= 'Z' }

  /** The inner loop runs over these before it has seen a `{`. */
  predicate IsNameChar(c: char) { IsAlpha(c) || c == '}' }

  /** Length of the longest run of name characters at the front of `s`. */
  function NameLength(s: string): (n: nat)
    ensures n <= |s|
    ensures forall i :: 0 <= i < n ==> IsNameChar(s[i])
    ensures n < |s| ==> !IsNameChar(s[n])
  {
    if s == [] || !IsNameChar(s[0]) then 0 else 1 + NameLength(s[1..])
  }

  /** Position of the first `}`, or the length of `s`. */
  function CloseAt(s: string): (n: nat)
    ensures n <= |s|
    ensures forall i :: 0 <= i < n ==> s[i] != '}'
    ensures n < |s| ==> s[n] == '}'
  {
    if s == [] || s[0] == '}' then 0 else 1 + CloseAt(s[1..])
  }

  function Flush(pending: string): seq<Part> {
    if pending == [] then [] else [Part(pending, "", false)]
  }

  function Prepend(parts: seq<Part>, rest: Parsed): Parsed { rest.(parts := parts + rest.parts) }

  /** The text kept back when a directive starts: a `%` is added before another `%`. */
  function Kept(p: string, pending: string): string {
    if |p| > 1 && p[1] == '%' then pending + ['%'] else pending
  }

  /** A directive read at the front of a pattern: its name, its format, and how long it is;
      None when its brace is never closed. */
  datatype Directive = Directive(name: string, fmt: string, length: nat)

  function ReadDirective(p: string): (d: Option<Directive>)
    requires p != []
    ensures d.Some? ==> 1 <= d.value.length <= |p|
  {
    var n := NameLength(p[1..]);
    var name := p[1..1 + n];
    if 1 + n < |p| && p[1 + n] == '{' then
      var k := CloseAt(p[2 + n..]);
      if 2 + n + k < |p| then Some(Directive(name, p[2 + n..2 + n + k], 3 + n + k)) else None
    else Some(Directive(name, "", 1 + n))
  }

  lemma NameLengthIs(s: string, n: nat)
    requires n <= |s| && (forall i :: 0 <= i < n ==> IsNameChar(s[i]))
    requires n < |s| ==> !IsNameChar(s[n])
    ensures NameLength(s) == n
  {}

  lemma CloseAtIs(s: string, n: nat)
    requires n <= |s| && (forall i :: 0 <= i < n ==> s[i] != '}')
    requires n < |s| ==> s[n] == '}'
    ensures CloseAt(s) == n
  {}

  /** A directive without a format: the name ends at `m`, not before a brace. */
  lemma {:induction false} ReadBare(q: string, m: nat)
    requires 1 <= m <= |q| && (forall j :: 1 <= j < m ==> IsNameChar(q[j]))
    requires m < |q| ==> !IsNameChar(q[m]) && q[m] != '{'
    ensures ReadDirective(q) == Some(Directive(q[1..m], "", m))
  {
    var tail := q[1..];
    assert forall j :: 0 <= j < m - 1 ==> tail[j] == q[j + 1];
    NameLengthIs(tail, m - 1);
  }

  /** The name ends at a brace at `b`, and no closing brace comes before `m`. */
  lemma {:induction false} ReadBraced(q: string, b: nat, m: nat)
    requires 1 <= b < m <= |q| && (forall j :: 1 <= j < b ==> IsNameChar(q[j]))
    requires q[b] == '{' && (forall j :: b < j < m ==> q[j] != '}')
    requires m < |q| ==> q[m] == '}'
    ensures ReadDirective(q) == if m < |q| then Some(Directive(q[1..b], q[b + 1..m], m + 1)) else None
  {
    var tail, inner := q[1..], q[b + 1..];
    assert forall j :: 0 <= j < b - 1 ==> tail[j] == q[j + 1];
    NameLengthIs(tail, b - 1);
    CloseAtIs(inner, m - b - 1);
  }

  /** Tokenize `p`, with the literal text `pending` read just before it. After an unclosed brace the
      error item comes first, `pending` is kept, and reading resumes right after the `%`. */
  function Parse(p: string, pending: string): Parsed
    decreases |p|
  {
    if p == [] then Parsed(Flush(pending), false)
    else if p[0] != '%' then Parse(p[1..], pending + [p[0]])
    else
      match ReadDirective(p)
      case Some(d) =>
        Prepend(Flush(Kept(p, pending)) + [Part(d.name, d.fmt, true)], Parse(p[d.length..], ""))
      case None =>
        Prepend([Part(PATTERN_ERROR, "", false)], Parse(p[1..], Kept(p, pending))).(error := true)
  }

  // The second pass: literals as they are, directives through the table

  predicate Known(part: Part) { part.isDirective ==> InTable(part.str) }

  function ItemOf(part: Part): Item {
    if !part.isDirective then Text(part.str)
    else if InTable(part.str) then Format(part.str, part.fmt)
    else Text("<<error_format %" + part.str + ">>")
  }

  function ItemsOf(parts: seq<Part>): seq<Item> {
    seq(|parts|, i requires 0 <= i < |parts| => ItemOf(parts[i]))
  }

  predicate AllKnown(parts: seq<Part>) { forall i :: 0 <= i < |parts| ==> Known(parts[i]) }

  function Compile(pattern: string): Compiled {
    var r := Parse(pattern, "");
    Compiled(ItemsOf(r.parts), r.error || !AllKnown(r.parts))
  }
}
