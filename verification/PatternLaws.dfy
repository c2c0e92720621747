/** What the compiler makes of the patterns outside the grammar, and of single directives, in plain text. */
module PatternLaws {
  import opened Scripts
  import opened Seqs
  import opened Patterns
  import opened PatternGrammar

  predicate IsLetter(c: char) { 'a' <= c <= 'z' || 'A' <= c <= 'Z' }

  /** What may belong to a directive's name: letters, and a closing brace outside a format. */
  predicate IsName(name: string) { forall i :: 0 <= i < |name| ==> IsLetter(name[i]) || name[i] == '}' }

  /** The twelve directives. */
  predicate InList(name: string) {
    name == "m" || name == "p" || name == "r" || name == "c" || name == "t" || name == "n"
    || name == "d" || name == "f" || name == "l" || name == "T" || name == "F" || name == "N"
  }

  lemma {:induction false} ListIsTable(name: string)
    ensures InList(name) <==> InTable(name)
  {
    if InTable(name) {
      assert name == [name[0]];
    }
  }

  /** What one directive becomes, and whether it is an error. */
  predicate BecomesItem(name: string, fmt: string, item: Item) {
    item == if InList(name) then Format(name, fmt) else Text("<<error_format %" + name + ">>")
  }

  lemma {:induction false} CompileDirective(p: string, d: Directive, rest: string)
    requires |p| > 0 && p[0] == '%' && (|p| > 1 ==> p[1] != '%') && ReadDirective(p) == Some(d) && p[d.length..] == rest
    ensures var c, r := Compile(p), Compile(rest);
      && c.items != [] && BecomesItem(d.name, d.fmt, c.items[0]) && c.items[1..] == r.items
      && (c.error <==> !InList(d.name) || r.error)
  {
    ListIsTable(d.name);
    var part, r := Part(d.name, d.fmt, true), Parse(rest, "");
    assert Parse(p, "") == Prepend(Flush("") + [part], r);
    assert Flush("") + [part] == [part];
    assert Parse(p, "").parts == [part] + r.parts;
    assert forall i :: 0 <= i < |r.parts| ==> Parse(p, "").parts[i + 1] == r.parts[i];
    AllKnownCons(part, r.parts);
  }

  lemma {:induction false} AllKnownCons(part: Part, parts: seq<Part>)
    ensures AllKnown([part] + parts) <==> Known(part) && AllKnown(parts)
  {
    var all := [part] + parts;
    assert all[0] == part;
    assert forall i :: 0 <= i < |parts| ==> all[i + 1] == parts[i];
  }

  /** A directive without a format ends before the first character that is neither a letter nor a brace. */
  lemma {:induction false} BareDirective(name: string, rest: string)
    requires IsName(name) && (rest != "" ==> !IsLetter(rest[0]) && rest[0] != '{' && rest[0] != '}')
    requires name == "" ==> rest == "" || rest[0] != '%'
    ensures var c, r := Compile("%" + name + rest), Compile(rest);
      && c.items != [] && BecomesItem(name, "", c.items[0]) && c.items[1..] == r.items
      && (c.error <==> !InList(name) || r.error)
  {
    var p := "%" + name + rest;
    var m := 1 + |name|;
    assert forall j :: 1 <= j < m ==> p[j] == name[j - 1];
    assert m < |p| ==> p[m] == rest[0];
    ReadBare(p, m);
    assert p[1..m] == name && p[m..] == rest;
    CompileDirective(p, Directive(name, "", m), rest);
  }

  /** A format reaches up to the first closing brace, and anything may follow. */
  lemma {:induction false} BracedDirective(name: string, fmt: string, rest: string)
    requires IsName(name) && '}' !in fmt
    ensures var c, r := Compile("%" + name + "{" + fmt + "}" + rest), Compile(rest);
      && c.items != [] && BecomesItem(name, fmt, c.items[0]) && c.items[1..] == r.items
      && (c.error <==> !InList(name) || r.error)
  {
    var p := "%" + name + "{" + fmt + "}" + rest;
    var b, m := 1 + |name|, 2 + |name| + |fmt|;
    assert forall j :: 1 <= j < b ==> p[j] == name[j - 1];
    assert forall j :: b < j < m ==> p[j] == fmt[j - b - 1];
    assert p[b] == '{' && p[m] == '}';
    ReadBraced(p, b, m);
    assert p[1..b] == name && p[b + 1..m] == fmt && p[m + 1..] == rest;
    CompileDirective(p, Directive(name, fmt, m + 1), rest);
  }

  lemma {:induction false} ParsePercents(text: string, rest: string)
    ensures Parse("%%" + rest, text)
      == Prepend([Part(text + "%", "", false)] + [Part("", "", true)], Parse("%" + rest, ""))
  {
    var p := "%%" + rest;
    ReadBareEmpty(p);
    assert p[1..] == "%" + rest;
    assert Kept(p, text) == text + "%";
  }

  lemma {:induction false} ItemsOfTwo(a: Part, b: Part, parts: seq<Part>)
    ensures var items := ItemsOf([a] + [b] + parts);
      |items| >= 2 && items[0] == ItemOf(a) && items[1] == ItemOf(b) && items[2..] == ItemsOf(parts)
    ensures !Known(b) ==> !AllKnown([a] + [b] + parts)
  {
    var all := [a] + [b] + parts;
    assert all[0] == a && all[1] == b;
    assert forall i :: 0 <= i < |parts| ==> all[i + 2] == parts[i];
  }

  /** `%%`: the first `%` is appended to the text before it, an error item without a name follows, and the
      second `%` is read as the start of another directive. */
  lemma {:induction false} DoublePercentItems(text: string, rest: string)
    requires '%' !in text
    ensures var c := Compile(text + ("%%" + rest));
      && c.error && |c.items| >= 2
      && c.items[0] == Text(text + "%") && c.items[1] == Text("<<error_format %>>")
      && c.items[2..] == Compile("%" + rest).items
  {
    ParseLit(text, "%%" + rest, "");
    assert "" + text == text;
    ParsePercents(text, rest);
    ItemsOfTwo(Part(text + "%", "", false), Part("", "", true), Parse("%" + rest, "").parts);
    assert "<<error_format %" + "" + ">>" == "<<error_format %>>";
  }

  /** An unclosed brace with no other directive after it. */
  lemma {:induction false} UnclosedBraceItems(text: string, name: string, rest: string)
    requires '%' !in text && '%' !in rest && '}' !in rest && IsName(name)
    ensures Compile(text + ("%" + (name + "{" + rest)))
      == Compiled([Text("<<pattern_error>>"), Text(text + (name + "{" + rest))], true)
  {
    UnclosedBraceThenText(text, name, rest);
  }
}
