/** `LogFormatter::init`: the nested index loops, proved against `Patterns`. */
module LogFormatter {
  import opened Scripts
  import opened Seqs
  import opened Patterns

  lemma {:induction false} BareRead(p: string, i: nat, n: nat)
    requires i < n <= |p| && (forall j :: i + 1 <= j < n ==> IsNameChar(p[j]))
    requires n < |p| ==> !IsNameChar(p[n]) && p[n] != '{'
    ensures ReadDirective(p[i..]) == Some(Directive(p[i + 1..n], "", n - i))
  {
    var q := p[i..];
    ReadBare(q, n - i);
    SliceOfRest(p, i, 1, n - i);
  }

  lemma {:induction false} BracedRead(p: string, i: nat, begin: nat, n: nat)
    requires i < begin < n <= |p| && (forall j :: i + 1 <= j < begin ==> IsNameChar(p[j]))
    requires p[begin] == '{' && (forall j :: begin < j < n ==> p[j] != '}')
    requires n < |p| ==> p[n] == '}'
    ensures ReadDirective(p[i..])
      == if n < |p| then Some(Directive(p[i + 1..begin], p[begin + 1..n], n + 1 - i)) else None
  {
    var q := p[i..];
    ReadBraced(q, begin - i, n - i);
    SliceOfRest(p, i, 1, begin - i);
    if n < |p| {
      SliceOfRest(p, i, begin - i + 1, n - i);
    }
  }

  class LogFormatter {
    const pattern: string
    var items: seq<Item>
    var error: bool

    constructor (pattern: string)
      ensures this.pattern == pattern
      ensures Compiled(items, error) == Compile(pattern)
    {
      this.pattern := pattern;
      items, error := [], false;
      new;
      Init();
    }

    /** The inner loop, entered with `i` at a `%`: `open` tells that a brace was left open, otherwise
        `n` is the position after the directive `str`, `fmt`. */
    method ScanDirective(i: nat) returns (n: nat, str: string, fmt: string, open: bool)
      requires i < |pattern|
      ensures open ==> fmt == ""
      ensures open <==> ReadDirective(pattern[i..]) == None
      ensures !open ==> i < n <= |pattern| && ReadDirective(pattern[i..]) == Some(Directive(str, fmt, n - i))
    {
      n := i + 1;
      var status := 0;
      var begin := 0;
      str, fmt := "", "";
      ghost var found := false;
      while n < |pattern|
        invariant i + 1 <= n <= |pattern|
        invariant status == 0 || status == 1
        invariant fmt == "" && !found
        invariant status == 0 ==> forall j :: i + 1 <= j < n ==> IsNameChar(pattern[j])
        invariant status == 0 ==> str == if n == |pattern| then pattern[i + 1..] else ""
        invariant status == 1 ==> i + 1 <= begin < n && pattern[begin] == '{'
        invariant status == 1 ==> forall j :: i + 1 <= j < begin ==> IsNameChar(pattern[j])
        invariant status == 1 ==> forall j :: begin < j < n ==> pattern[j] != '}'
        invariant status == 1 && n < |pattern| ==> str == pattern[i + 1..begin]
      {
        if status == 0 && !IsAlpha(pattern[n]) && pattern[n] != '{' && pattern[n] != '}' {
          str := pattern[i + 1..n];
          BareRead(pattern, i, n);
          found := true;
          break;
        }
        if status == 0 {
          if pattern[n] == '{' {
            str := pattern[i + 1..n];
            status := 1;
            begin := n;
            n := n + 1;
            continue;
          }
        } else {
          if pattern[n] == '}' {
            fmt := pattern[begin + 1..n];
            status := 0;
            BracedRead(pattern, i, begin, n);
            found := true;
            n := n + 1;
            break;
          }
        }
        n := n + 1;
        if n == |pattern| {
          if str == "" {
            str := pattern[i + 1..];
          }
        }
      }
      if !found {
        if status == 0 {
          BareRead(pattern, i, n);
          assert pattern[i + 1..n] == pattern[i + 1..];
        } else {
          BracedRead(pattern, i, begin, n);
        }
      }
      open := status == 1;
    }

    /** What is left to do when the outer loop stands at `i` gives the whole result. */
    ghost predicate OnCourse(vec: seq<Part>, i: nat, pending: string)
      requires i <= |pattern|
      reads this
    {
      var rest := Parse(pattern[i..], pending);
      Parse(pattern, "") == Prepend(vec, rest).(error := error || rest.error)
    }

    lemma {:induction false} LiteralStep(vec: seq<Part>, i: nat, pending: string)
      requires i < |pattern| && pattern[i] != '%' && OnCourse(vec, i, pending)
      ensures OnCourse(vec, i + 1, pending + [pattern[i]])
    {
      assert pattern[i..][1..] == pattern[i + 1..];
    }

    static lemma {:induction false} PrependTwice(a: seq<Part>, b: seq<Part>, rest: Parsed)
      ensures Prepend(a, Prepend(b, rest)) == Prepend(a + b, rest)
    {
      Reassociate(a, b, rest.parts);
    }

    lemma {:induction false} DirectiveStep(vec: seq<Part>, i: nat, pending: string, n: nat, str: string, fmt: string)
      requires i < n <= |pattern| && pattern[i] == '%' && OnCourse(vec, i, pending)
      requires ReadDirective(pattern[i..]) == Some(Directive(str, fmt, n - i))
      ensures OnCourse(vec + Flush(Kept(pattern[i..], pending)) + [Part(str, fmt, true)], n, "")
    {
      assert pattern[i..][n - i..] == pattern[n..];
      var kept, part := Flush(Kept(pattern[i..], pending)), [Part(str, fmt, true)];
      var front := kept + part;
      assert Parse(pattern[i..], pending) == Prepend(front, Parse(pattern[n..], ""));
      PrependTwice(vec, front, Parse(pattern[n..], ""));
      Reassociate(vec, kept, part);
    }

    lemma {:induction false} BreakStep(vec: seq<Part>, i: nat, pending: string)
      requires i < |pattern| && pattern[i] == '%' && ReadDirective(pattern[i..]) == None
      ensures var front, rest := [Part(PATTERN_ERROR, "", false)], Parse(pattern[i + 1..], Kept(pattern[i..], pending));
        Prepend(vec, Parse(pattern[i..], pending)) == Prepend(vec + front, rest).(error := true)
    {
      assert pattern[i..][1..] == pattern[i + 1..];
      PrependTwice(vec, [Part(PATTERN_ERROR, "", false)], Parse(pattern[i + 1..], Kept(pattern[i..], pending)));
    }

    lemma {:induction false} EndStep(vec: seq<Part>, pending: string)
      requires OnCourse(vec, |pattern|, pending)
      ensures Parse(pattern, "") == Parsed(vec + Flush(pending), error)
    {
      assert pattern[|pattern|..] == "";
    }

    /** `init`: tokenizes into `vec`, then builds the items. */
    method Init()
      requires !error && items == []
      modifies this
      ensures Compiled(items, error) == Compile(pattern)
    {
      var vec: seq<Part> := [];
      var pending := "";
      var i := 0;
      assert pattern[0..] == pattern;
      while i < |pattern|
        invariant 0 <= i <= |pattern| && items == []
        invariant OnCourse(vec, i, pending)
      {
        vec, i, pending := Iterate(vec, i, pending);
      }
      EndStep(vec, pending);
      vec := PushLiteral(vec, pending);
      Build(vec);
    }

    /** One round of the outer loop. */
    method Iterate(vec: seq<Part>, i: nat, pending: string) returns (vec': seq<Part>, i': nat, pending': string)
      requires i < |pattern| && OnCourse(vec, i, pending)
      modifies this`error
      ensures i < i' <= |pattern| && OnCourse(vec', i', pending')
    {
      if pattern[i] != '%' {
        LiteralStep(vec, i, pending);
        return vec, i + 1, pending + [pattern[i]];
      }
      vec', i', pending' := vec, i, pending;
      if i + 1 < |pattern| {
        if pattern[i + 1] == '%' {
          pending' := pending + [pattern[i]];
        }
      }
      assert pending' == Kept(pattern[i..], pending);
      var n, str, fmt, open := ScanDirective(i);
      if !open {
        DirectiveStep(vec, i, pending, n, str, fmt);
        vec' := PushLiteral(vec, pending');
        pending' := "";
        vec' := vec' + [Part(str, fmt, true)];
        i' := n - 1;
      } else {
        vec' := Break(vec, i, pending, fmt);
      }
      i' := i' + 1;
    }

    static method PushLiteral(vec: seq<Part>, pending: string) returns (vec': seq<Part>)
      ensures vec' == vec + Flush(pending)
    {
      vec' := vec;
      if pending != "" {
        vec' := vec' + [Part(pending, "", false)];
      }
    }

    /** The error branch: the error item is pushed ahead of the pending text. */
    method Break(vec: seq<Part>, i: nat, ghost pending: string, fmt: string) returns (vec': seq<Part>)
      requires i < |pattern| && pattern[i] == '%' && OnCourse(vec, i, pending)
      requires ReadDirective(pattern[i..]) == None && fmt == ""
      modifies this`error
      ensures error && OnCourse(vec', i + 1, Kept(pattern[i..], pending))
    {
      BreakStep(vec, i, pending);
      vec' := vec + [Part(PATTERN_ERROR, fmt, false)];
      error := true;
    }

    /** The second pass of `init`. */
    method Build(vec: seq<Part>)
      requires items == []
      modifies this
      ensures items == ItemsOf(vec) && error == (old(error) || !AllKnown(vec))
    {
      for k := 0 to |vec|
        invariant items == ItemsOf(vec[..k]) && error == (old(error) || !AllKnown(vec[..k]))
      {
        assert vec[..k + 1] == vec[..k] + [vec[k]];
        if !vec[k].isDirective {
          items := items + [Text(vec[k].str)];
        } else if !InTable(vec[k].str) {
          items := items + [Text("<<error_format %" + vec[k].str + ">>")];
          error := true;
        } else {
          items := items + [Format(vec[k].str, vec[k].fmt)];
        }
      }
      assert vec[..|vec|] == vec;
    }
  }
}
