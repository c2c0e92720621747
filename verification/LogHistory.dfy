/** The loggers after any number of configuration changes. */
module LogHistory {
  import opened Scripts
  import opened Seqs
  import opened Patterns
  import opened PatternGrammar
  import opened Loggers
  import opened LogReload

  /** Successive values of the configuration; the listener survives each change. */
  ghost predicate Survives(before: Config, cs: seq<Config>)
    decreases |cs|
  {
    cs != [] ==> (before == cs[0] || Applicable(before, cs[0])) && Survives(cs[0], cs[1..])
  }

  function LoadAll(v: View, before: Config, cs: seq<Config>): View
    decreases |cs|
  {
    if cs == [] then v else LoadAll(Loaded(v, before, cs[0]), cs[0], cs[1..])
  }

  function Current(before: Config, cs: seq<Config>): Config
    decreases |cs|
  {
    if cs == [] then before else Current(cs[0], cs[1..])
  }

  predicate Mentioned(n: string, cs: seq<Config>) {
    cs != [] && (n in cs[0] || Mentioned(n, cs[1..]))
  }

  /** How logger `n` stands, having started as in `v0`, with `current` in force; `seen` tells whether some
      configuration has mentioned it. */
  ghost predicate Stands(n: string, v0: View, v: View, current: Config, seen: bool) {
    if n in current then seen && n in v && Matches(v[n], current[n])
    else if seen then n in v && v[n].level == 100 && v[n].appenders == []
    else (n in v <==> n in v0) && (n in v0 ==> v[n] == v0[n])
  }

  lemma {:induction false} LoadStands(n: string, v0: View, v: View, before: Config, after: Config, seen: bool)
    requires Stands(n, v0, v, before, seen)
    ensures Stands(n, v0, Loaded(v, before, after), after, seen || n in after)
  {
    if n in after {
      ConfiguredMatches(Get(v, n), after[n]);
    }
  }

  lemma {:induction false} LoadsStand(n: string, v0: View, v: View, before: Config, cs: seq<Config>, seen: bool)
    requires Stands(n, v0, v, before, seen)
    ensures Stands(n, v0, LoadAll(v, before, cs), Current(before, cs), seen || Mentioned(n, cs))
    decreases |cs|
  {
    if cs != [] {
      LoadStands(n, v0, v, before, cs[0], seen);
      LoadsStand(n, v0, Loaded(v, before, cs[0]), cs[0], cs[1..], seen || n in cs[0]);
    }
  }

  /** After any number of reloads: every configured logger has its definition's level, formatter and
      appenders, every logger that some configuration mentioned and the present one does not is silent and
      empty, and all others are as they were. */
  lemma {:induction false} ReloadsReachConfig(v0: View, cs: seq<Config>, n: string)
    ensures var v, c := LoadAll(v0, map[], cs), Current(map[], cs);
      if n in c then n in v && Matches(v[n], c[n])
      else if Mentioned(n, cs) then n in v && v[n].level == 100 && v[n].appenders == []
      else (n in v <==> n in v0) && (n in v0 ==> v[n] == v0[n])
  {
    LoadsStand(n, v0, v0, map[], cs, false);
  }

  /** The last format that a changed configuration gave logger `n`, among those that compile. */
  ghost function LastFormat(n: string, before: Config, cs: seq<Config>): Option<string>
    decreases |cs|
  {
    if cs == [] then None
    else
      var later := LastFormat(n, cs[0], cs[1..]);
      if later.Some? then later
      else if before != cs[0] && n in cs[0] && Gives(cs[0][n].format) then Some(cs[0][n].format)
      else None
  }

  /** A logger prints with the last format given to it that compiles; before that with the one it had, or with
      the default pattern if it was new. */
  lemma {:induction false} LastFormatStands(n: string, v: View, before: Config, cs: seq<Config>)
    requires n in LoadAll(v, before, cs)
    ensures LoadAll(v, before, cs)[n].formatter ==
      match LastFormat(n, before, cs)
      case Some(format) => Some(Formatter(format))
      case None => if n in v then v[n].formatter else Some(Formatter(DEFAULT_PATTERN))
    decreases |cs|
  {
    if cs != [] {
      var w := Loaded(v, before, cs[0]);
      LastFormatStands(n, w, cs[0], cs[1..]);
      if n in cs[0] {
        ConfiguredMatches(Get(v, n), cs[0][n]);
      }
    }
  }

  /** The listener is not called, or finds no definition that was there before and only known appenders. */
  predicate Bearable(before: Config, after: Config) {
    before == after ||
    forall n :: n in after ==>
      && (n in before ==> before[n] != after[n])
      && forall i :: 0 <= i < |after[n].appenders| ==>
           after[n].appenders[i].kind == 1 || after[n].appenders[i].kind == 2
  }

  predicate BearableAt(before: Config, cs: seq<Config>, k: nat)
    requires k < |cs|
  {
    Bearable(if k == 0 then before else cs[k - 1], cs[k])
  }

  /** Spelled out: the listener survives exactly if every change is bearable. */
  lemma {:induction false} SurvivesIff(before: Config, cs: seq<Config>)
    ensures Survives(before, cs) <==> forall k :: 0 <= k < |cs| ==> BearableAt(before, cs, k)
    decreases |cs|
  {
    if cs != [] {
      SurvivesIff(cs[0], cs[1..]);
      forall k | 0 <= k < |cs| - 1 ensures BearableAt(before, cs, k + 1) == BearableAt(cs[0], cs[1..], k) {}
      assert BearableAt(before, cs, 0) == (before == cs[0] || Applicable(before, cs[0]));
      forall k | 0 < k < |cs| && Survives(before, cs) ensures BearableAt(before, cs, k) {
        assert BearableAt(cs[0], cs[1..], k - 1);
      }
    }
  }

  /** `ConfigVar::setValue` for one value after the other, with the listener attached: all are survived
      exactly if every one that differs from the one before can be applied, and then the loggers are as
      `LoadAll` says. `ok` is false where the source follows a null pointer. */
  method SetValues(m: LoggerManager, before: Config, cs: seq<Config>, level: int, ghost v: View) returns (ok: bool)
    requires m.Valid() && m.Shows(v)
    modifies m, m.Repr
    ensures ok <==> Survives(before, cs)
    ensures ok ==> m.Valid() && m.Shows(LoadAll(v, before, cs))
    decreases |cs|
  {
    ok := true;
    if cs != [] {
      if before != cs[0] {
        ok := m.Reload(before, cs[0], level, v);
      }
      if ok {
        ok := SetValues(m, cs[0], cs[1..], level, Loaded(v, before, cs[0]));
      }
    }
  }

  // Formatters

  /** There is a formatter, and its pattern is one of the grammar. */
  ghost predicate Sound(f: Option<Formatter>) { f.Some? && InGrammar(f.value.pattern) }

  ghost predicate SoundLogger(l: LoggerView) {
    Sound(l.formatter) && forall i :: 0 <= i < |l.appenders| ==> Sound(l.appenders[i].state.formatter)
  }

  lemma {:induction false} ConfiguredIsSound(l: LoggerView, d: LogDefine)
    requires Sound(l.formatter)
    ensures SoundLogger(Configured(l, d))
  {}

  /** Logger `n` prints with a pattern that compiles, and if a configuration has set it up (`seen`), so do
      its appenders. */
  ghost predicate SoundAt(n: string, v: View, seen: bool) {
    && (n in v ==> Sound(v[n].formatter))
    && (seen ==> n in v && SoundLogger(v[n]))
  }

  lemma {:induction false} LoadIsSound(n: string, v: View, before: Config, after: Config, seen: bool)
    requires SoundAt(n, v, seen) && (n in before ==> seen)
    ensures SoundAt(n, Loaded(v, before, after), seen || n in after)
  {
    DefaultIsSound();
    if n in after {
      ConfiguredIsSound(Get(v, n), after[n]);
    }
  }

  lemma {:induction false} LoadsAreSound(n: string, v: View, before: Config, cs: seq<Config>, seen: bool)
    requires SoundAt(n, v, seen) && (n in before ==> seen)
    ensures SoundAt(n, LoadAll(v, before, cs), seen || Mentioned(n, cs))
    decreases |cs|
  {
    if cs != [] {
      LoadIsSound(n, v, before, cs[0], seen);
      LoadsAreSound(n, Loaded(v, before, cs[0]), cs[0], cs[1..], seen || n in cs[0]);
    }
  }

  /** No logger, and no appender made by a configuration, ever prints with a pattern that failed to
      compile, whatever patterns the configurations contain. */
  lemma {:induction false} ReloadsKeepSound(v: View, cs: seq<Config>, n: string)
    requires n in v ==> Sound(v[n].formatter)
    ensures var w := LoadAll(v, map[], cs);
      && (n in w ==> Sound(w[n].formatter))
      && (Mentioned(n, cs) ==> n in w && SoundLogger(w[n]))
  {
    LoadsAreSound(n, v, map[], cs, false);
  }

  // The default pattern

  /** `g` spells `s`, which is empty or starts with a directive. */
  ghost predicate Spells(g: seq<Piece>, s: string) {
    WellFormed(g) && ShowAll(g) == s && (s != "" ==> s[0] == '%')
  }

  /** One directive without a format and the text after it, put before what comes next. */
  lemma {:induction false} Put(x: char, text: string, s: string, g: seq<Piece>, t: string) returns (g': seq<Piece>)
    requires x in DIRECTIVES && s == ['%', x] + text && Spells(g, t)
    requires '%' !in text && !SticksToName(text)
    ensures Spells(g', s + t)
  {
    var rest := g;
    if text != "" {
      rest := [Lit(text)] + g;
      assert rest[1..] == g;
    }
    assert ShowAll(rest) == text + t;
    g' := [Bare(x)] + rest;
    assert g'[1..] == rest;
    Reassociate(['%', x], text, t);
  }

  lemma {:induction false} DefaultTail() returns (g: seq<Piece>)
    ensures Spells(g, DEFAULT_TAIL)
  {
    g := Put('n', "", "%n", [], "");
    g := Put('m', "", "%m", g, "%n");
    g := Put('T', "", "%T", g, "%m" + "%n");
    g := Put('l', "", "%l", g, "%T" + ("%m" + "%n"));
    g := Put('f', ":", "%f:", g, "%l" + ("%T" + ("%m" + "%n")));
    g := Put('T', "", "%T", g, "%f:" + ("%l" + ("%T" + ("%m" + "%n"))));
    g := Put('c', "]", "%c]", g, "%T" + ("%f:" + ("%l" + ("%T" + ("%m" + "%n")))));
    g := Put('T', "[", "%T[", g, "%c]" + ("%T" + ("%f:" + ("%l" + ("%T" + ("%m" + "%n"))))));
    g := Put('p', "]", "%p]", g, "%T[" + ("%c]" + ("%T" + ("%f:" + ("%l" + ("%T" + ("%m" + "%n")))))));
    g := Put('T', "[", "%T[", g, "%p]" + ("%T[" + ("%c]" + ("%T" + ("%f:" + ("%l" + ("%T" + ("%m" + "%n"))))))));
  }

  /** The pattern every new logger starts with compiles. */
  lemma {:induction false} DefaultIsSound()
    ensures Sound(Some(Formatter(DEFAULT_PATTERN)))
  {
    var tail := DEFAULT_TAIL;
    var g := DefaultTail();
    g := Put('F', "", "%F", g, tail);
    g := Put('T', "", "%T", g, "%F" + tail);
    g := Put('N', "", "%N", g, "%T" + ("%F" + tail));
    g := Put('T', "", "%T", g, "%N" + ("%T" + ("%F" + tail)));
    g := Put('t', "", "%t", g, "%T" + ("%N" + ("%T" + ("%F" + tail))));
    g := Put('T', "", "%T", g, "%t" + ("%T" + ("%N" + ("%T" + ("%F" + tail)))));
    g := PutDate(g, "%T" + ("%t" + ("%T" + ("%N" + ("%T" + ("%F" + tail))))));
  }

  lemma {:induction false} PutDate(g: seq<Piece>, t: string) returns (g': seq<Piece>)
    requires Spells(g, t)
    ensures Spells(g', ['%', 'd', '{'] + DATE_FORMAT + ['}'] + t)
  {
    var date := Braced('d', DATE_FORMAT);
    assert PieceOk(date);
    g' := [date] + g;
    assert g'[1..] == g;
  }
}
