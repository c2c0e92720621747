/** The listener that applies a changed `logs` configuration to the loggers. */
module LogReload {
  import opened Scripts
  import opened Loggers

  const DEBUG := 1
  const SILENT := 100
  /** Written directive by directive. */
  const DEFAULT_PATTERN :=
    ['%', 'd', '{'] + DATE_FORMAT + ['}'] + ("%T" + ("%t" + ("%T" + ("%N" + ("%T" + ("%F" + DEFAULT_TAIL))))))
  const DATE_FORMAT := "%Y-%m-%d %H:%M:%S"
  const DEFAULT_TAIL := "%T[" + ("%p]" + ("%T[" + ("%c]" + ("%T" + ("%f:" + ("%l" + ("%T" + ("%m" + "%n"))))))))

  /** `kind` is 1 for a file, 2 for stdout. */
  datatype LogAppenderDefine = LogAppenderDefine(kind: int, level: int, format: string, file: string)

  datatype LogDefine = LogDefine(name: string, level: int, format: string, appenders: seq<LogAppenderDefine>)

  /** `std::set<LogDefine>`, whose order looks at names only. */
  type Config = map<string, LogDefine>

  datatype AppenderView = AppenderView(kind: Kind, state: AppenderState)

  datatype LoggerView = LoggerView(level: int, formatter: Option<Formatter>, appenders: seq<AppenderView>)

  type View = map<string, LoggerView>

  function NewLogger(): LoggerView { LoggerView(DEBUG, Some(Formatter(DEFAULT_PATTERN)), []) }

  /** `LOG_NAME`: a logger that does not exist yet is made. */
  function Get(v: View, n: string): LoggerView { if n in v then v[n] else NewLogger() }

  /** A non-empty pattern that compiles without an error. */
  predicate Usable(format: string) { format != "" && !Formatter(format).IsError() }

  function FormatterAfter(l: LoggerView, format: string): Option<Formatter> {
    if Usable(format) then Some(Formatter(format)) else l.formatter
  }

  function AppenderFor(inherited: Option<Formatter>, d: LogAppenderDefine): AppenderView {
    AppenderView(if d.kind == 1 then File(d.file) else Stdout,
                 if Usable(d.format) then AppenderState(d.level, true, Some(Formatter(d.format)))
                 else AppenderState(d.level, false, inherited))
  }

  function AppendersFor(inherited: Option<Formatter>, ds: seq<LogAppenderDefine>): seq<AppenderView> {
    seq(|ds|, i requires 0 <= i < |ds| => AppenderFor(inherited, ds[i]))
  }

  /** The logger a definition asks for; only its formatter depends on what was there before. */
  function Configured(l: LoggerView, d: LogDefine): LoggerView {
    var f := FormatterAfter(l, d.format);
    LoggerView(d.level, f, AppendersFor(f, d.appenders))
  }

  /** A format that is given and compiles. */
  ghost predicate Gives(format: string) { format != "" && InGrammar(format) }

  /** The appender is what its definition says; without a format that compiles it has the logger's. */
  ghost predicate AppenderMatches(a: AppenderView, d: LogAppenderDefine, inherited: Option<Formatter>) {
    && a.kind == (if d.kind == 1 then File(d.file) else Stdout)
    && a.state.level == d.level
    && (Gives(d.format) ==> a.state.own && a.state.formatter == Some(Formatter(d.format)))
    && (!Gives(d.format) ==> !a.state.own && a.state.formatter == inherited)
  }

  /** The logger is set up as the definition says: its formatter too, if that compiles, and its appenders. */
  ghost predicate Matches(l: LoggerView, d: LogDefine) {
    && l.level == d.level
    && (Gives(d.format) ==> l.formatter == Some(Formatter(d.format)))
    && |l.appenders| == |d.appenders|
    && forall i :: 0 <= i < |d.appenders| ==> AppenderMatches(l.appenders[i], d.appenders[i], l.formatter)
  }

  /** What a definition configures is what it says; without a format that compiles the logger keeps its own. */
  lemma {:induction false} ConfiguredMatches(l: LoggerView, d: LogDefine)
    ensures Matches(Configured(l, d), d)
    ensures !Gives(d.format) ==> Configured(l, d).formatter == l.formatter
  {
    forall i | 0 <= i < |d.appenders|
      ensures AppenderMatches(Configured(l, d).appenders[i], d.appenders[i], Configured(l, d).formatter)
    {
      assert Usable(d.appenders[i].format) <==> Gives(d.appenders[i].format);
    }
    assert Usable(d.format) <==> Gives(d.format);
  }

  function Dropped(l: LoggerView): LoggerView { l.(level := SILENT, appenders := []) }

  predicate KindsOk(d: LogDefine) {
    forall i :: 0 <= i < |d.appenders| ==> d.appenders[i].kind == 1 || d.appenders[i].kind == 2
  }

  /** The listener follows a null pointer for a definition that is carried over unchanged, and for an
      appender that is neither a file nor stdout. */
  predicate Applicable(before: Config, after: Config) {
    forall n :: n in after ==> Good(n, before, after)
  }

  predicate Good(n: string, before: Config, after: Config)
    requires n in after
  {
    KindsOk(after[n]) && !(n in before && before[n] == after[n])
  }

  function Reloaded(v: View, before: Config, after: Config): View {
    map n | n in v.Keys + before.Keys + after.Keys ::
      if n in after then Configured(Get(v, n), after[n])
      else if n in before then Dropped(Get(v, n))
      else v[n]
  }

  /** `ConfigVar::setValue`: the listener is called only when the value changes. */
  function Loaded(v: View, before: Config, after: Config): View {
    if before == after then v else Reloaded(v, before, after)
  }

  ghost function ViewOf(l: Logger): LoggerView
    reads l, l.appenders
  {
    LoggerView(l.level, l.formatter,
               seq(|l.appenders|, i requires 0 <= i < |l.appenders| reads l, l.appenders =>
                 AppenderView(l.appenders[i].kind, l.appenders[i].State())))
  }

  /** One appender of a definition. */
  method MakeAppender(d: LogAppenderDefine, level: int, ghost maker: string) returns (a: LogAppender)
    requires d.kind == 1 || d.kind == 2
    ensures fresh(a) && a.maker == maker && a.kind == (if d.kind == 1 then File(d.file) else Stdout)
    ensures a.State() == if Usable(d.format) then AppenderState(d.level, true, Some(Formatter(d.format)))
                         else AppenderState(d.level, false, None)
  {
    if d.kind == 1 {
      a := new LogAppender(File(d.file), level, maker);
    } else {
      a := new LogAppender(Stdout, level, maker);
    }
    if d.format != "" {
      var f := Formatter(d.format);
      if !f.IsError() {
        a.SetFormatter(Some(f));
      }
    }
    a.level := d.level;
  }

  /** Level, formatter, and away with the old appenders. */
  method Prepare(l: Logger, d: LogDefine)
    modifies l, set a | a in l.appenders
    ensures l.level == d.level && l.appenders == [] && l.formatter == FormatterAfter(old(ViewOf(l)), d.format)
  {
    l.level := d.level;
    if d.format != "" {
      ghost var objs := set a | a in l.appenders;
      ghost var before := l.State(objs);
      l.SetPattern(d.format, objs);
      assert l.State(objs).formatter == if Usable(d.format) then Some(Formatter(d.format)) else before.formatter;
    }
    l.ClearAppender({});
    assert l.State({}).attached == [];
  }

  method AddOne(l: Logger, d: LogAppenderDefine, level: int)
    requires d.kind == 1 || d.kind == 2
    modifies l`appenders
    ensures |l.appenders| == |old(l.appenders)| + 1 && l.appenders[..|old(l.appenders)|] == old(l.appenders)
    ensures var a := l.appenders[|old(l.appenders)|];
      fresh(a) && a.maker == l.name && AppenderView(a.kind, a.State()) == AppenderFor(l.formatter, d)
  {
    var a := MakeAppender(d, level, l.name);
    ghost var before := l.State({a});
    l.AddAppender(a, {a});
    assert l.State({a}).app[a] == a.State() && l.State({a}).attached == before.attached + [a];
  }

  /** The body of the loop over the new definitions; `ok` is false where it follows a null appender.
      `level` is what an appender's uninitialised level field happens to hold. */
  method Configure(l: Logger, d: LogDefine, level: int) returns (ok: bool)
    modifies l, set a | a in l.appenders
    ensures ok == KindsOk(d)
    ensures ok ==> ViewOf(l) == Configured(old(ViewOf(l)), d)
    ensures forall a :: a in l.appenders ==> fresh(a) && a.maker == l.name
  {
    Prepare(l, d);
    ghost var f := l.formatter;
    for k := 0 to |d.appenders|
      invariant l.level == d.level && l.formatter == f
      invariant |l.appenders| == k
      invariant forall i :: 0 <= i < k ==> d.appenders[i].kind == 1 || d.appenders[i].kind == 2
      invariant forall i :: 0 <= i < k ==> fresh(l.appenders[i]) && l.appenders[i].maker == l.name
      invariant forall i :: 0 <= i < k ==>
        AppenderView(l.appenders[i].kind, l.appenders[i].State()) == AppenderFor(f, d.appenders[i])
    {
      if d.appenders[k].kind != 1 && d.appenders[k].kind != 2 {
        return false;
      }
      ghost var before := l.appenders;
      AddOne(l, d.appenders[k], level);
      assert forall i :: 0 <= i < k ==> l.appenders[i] == before[i];
    }
    ok := true;
  }

  class LoggerManager {
    const root: Logger
    var loggers: map<string, Logger>
    ghost var Repr: set<object>

    /** Every logger is filed under its name, hands over to the root logger, and has appenders made for it
        only. */
    ghost predicate Valid()
      reads this, Repr
    {
      && this !in Repr
      && (forall n :: n in loggers ==> loggers[n] in Repr && Filed(n, loggers[n]))
    }

    ghost predicate Filed(n: string, l: Logger)
      reads this, l
    {
      && l.name == n && l.root == (if l == root then null else root)
      && forall a :: a in l.appenders ==> a in Repr && a.maker == n
    }

    ghost predicate Shows(v: View)
      reads this, Repr
      requires Valid()
    {
      && v.Keys == loggers.Keys
      && (forall n :: n in loggers ==> ViewOf(loggers[n]) == v[n])
    }

    /** The constructor of the source: the root logger writes to stdout. */
    constructor (level: int)
      ensures Valid() && fresh(Repr)
      ensures var l := NewLogger();
        Shows(map["root" := l.(appenders := [AppenderView(Stdout, AppenderState(level, false, l.formatter))])])
    {
      var root := new Logger("root", DEBUG, Formatter(DEFAULT_PATTERN), null);
      var a := new LogAppender(Stdout, level, "root");
      ghost var before := root.State({a});
      root.AddAppender(a, {a});
      assert root.State({a}).app[a] == a.State() && root.State({a}).attached == [a];
      assert ViewOf(root).appenders == [AppenderView(Stdout, a.State())];
      this.root := root;
      loggers := map["root" := root];
      Repr := {root, a};
    }

    method NewNamed(n: string, ghost v: View) returns (l: Logger)
      requires Valid() && Shows(v) && n !in loggers
      modifies this
      ensures Valid() && Repr == old(Repr) + {l} && fresh(l)
      ensures n in loggers && l == loggers[n]
      ensures l.level == 1 && l.appenders == [] && l.formatter == Some(Formatter(DEFAULT_PATTERN))
      ensures Shows(v[n := NewLogger()])
    {
      l := new Logger(n, DEBUG, Formatter(DEFAULT_PATTERN), root);
      assert ViewOf(l) == NewLogger();
      Repr := Repr + {l};
      loggers := loggers[n := l];
    }

    method GetLogger(n: string, ghost v: View) returns (l: Logger)
      requires Valid() && Shows(v)
      modifies this
      ensures Valid() && old(Repr) <= Repr && fresh(Repr - old(Repr))
      ensures n in loggers && l == loggers[n] && l.root == (if l == root then null else root)
      ensures n in old(loggers) ==> l == old(loggers[n]) && loggers == old(loggers)
      ensures n !in old(loggers) ==>
        fresh(l) && l.level == 1 && l.appenders == [] && l.formatter == Some(Formatter(DEFAULT_PATTERN))
      ensures Shows(v[n := Get(v, n)])
    {
      if n in loggers {
        l := loggers[n];
        assert v[n := Get(v, n)] == v;
      } else {
        l := NewNamed(n, v);
      }
    }

    /** The footprint takes in the appenders just made for the logger. */
    ghost method Adopt(n: string, l: Logger)
      requires this !in Repr && n in loggers && l == loggers[n] && l in Repr && l.name == n
      requires l.root == if l == root then null else root
      requires forall m :: m in loggers && m != n ==> loggers[m] in Repr && Filed(m, loggers[m])
      requires forall a :: a in l.appenders ==> a.maker == n
      modifies this`Repr
      ensures Valid() && Repr == old(Repr) + set a | a in l.appenders
    {
      Repr := Repr + set a | a in l.appenders;
    }

    method ConfigureAt(n: string, l: Logger, d: LogDefine, level: int, ghost v: View) returns (ok: bool)
      requires Valid() && Shows(v) && n in loggers && l == loggers[n]
      modifies this`Repr, Repr
      ensures Valid() && old(Repr) <= Repr && fresh(Repr - old(Repr))
      ensures ok == KindsOk(d)
      ensures ok ==> Shows(v[n := Configured(v[n], d)])
    {
      assert forall m :: m in loggers && m != n ==> loggers[m] != l;
      ok := Configure(l, d, level);
      assert forall m :: m in loggers && m != n ==> Filed(m, loggers[m]) && ViewOf(loggers[m]) == v[m];
      Adopt(n, l);
    }

    /** The definitions of `done` have been applied, those of `todo` have not. */
    static ghost predicate SoFar(before: Config, after: Config, todo: set<string>, done: set<string>) {
      && Parted(after.Keys, todo, done)
      && (forall n :: n in done ==> Good(n, before, after))
    }

    static lemma {:induction false} OneMore(before: Config, after: Config,
                                           todo: set<string>, done: set<string>, n: string)
      requires SoFar(before, after, todo, done) && n in todo
      ensures done + {n} <= after.Keys && n !in done
      ensures Good(n, before, after) ==> SoFar(before, after, todo - {n}, done + {n})
      ensures !Good(n, before, after) ==> !Applicable(before, after)
    {}

    static lemma {:induction false} AllSoFar(before: Config, after: Config, done: set<string>)
      requires SoFar(before, after, {}, done)
      ensures done == after.Keys && Applicable(before, after)
    {}

    /** One new or changed definition; false where the source follows a null pointer. */
    method ApplyDefine(n: string, d: LogDefine, before: Config, level: int, ghost v: View) returns (ok: bool)
      requires Valid() && Shows(v)
      modifies this, Repr
      ensures Valid() && old(Repr) <= Repr && fresh(Repr - old(Repr))
      ensures ok == (KindsOk(d) && !(n in before && before[n] == d))
      ensures ok ==> Shows(v[n := Configured(Get(v, n), d)])
    {
      var l: Logger? := null;
      if n !in before {
        l := GetLogger(n, v);
      } else {
        if !(d == before[n]) {
          l := GetLogger(n, v);
        }
      }
      if l == null {
        return false;
      }
      Overwrite(v, n, Get(v, n), Configured(Get(v, n), d));
      ok := ConfigureAt(n, l, d, level, v[n := Get(v, n)]);
    }

    method Drop(n: string, ghost v: View)
      requires Valid() && Shows(v)
      modifies this, Repr
      ensures Valid() && old(Repr) <= Repr && fresh(Repr - old(Repr))
      ensures Shows(v[n := Dropped(Get(v, n))])
    {
      var l := GetLogger(n, v);
      Overwrite(v, n, Get(v, n), Dropped(Get(v, n)));
      Silence(n, l, v[n := Get(v, n)]);
    }

    method Silence(n: string, l: Logger, ghost v: View)
      requires Valid() && Shows(v) && n in loggers && l == loggers[n]
      modifies Repr
      ensures Valid() && Shows(v[n := Dropped(v[n])])
    {
      l.level := SILENT;
      l.ClearAppender({});
      assert l.State({}).attached == [];
    }

    method ApplyNext(n: string, before: Config, after: Config, level: int, ghost v: View, ghost done: set<string>)
      returns (ok: bool)
      requires done + {n} <= after.Keys && n !in done
      requires Valid() && Shows(Partly(v, after, done))
      modifies this, Repr
      ensures Valid() && old(Repr) <= Repr && fresh(Repr - old(Repr))
      ensures ok == Good(n, before, after)
      ensures ok ==> Shows(Partly(v, after, done + {n}))
    {
      ok := ApplyDefine(n, after[n], before, level, Partly(v, after, done));
      PartlyNext(v, after, done, n);
    }

    method DropNext(n: string, ghost v: View, ghost done: set<string>)
      requires n !in done && Valid() && Shows(Gone(v, done))
      modifies this, Repr
      ensures Valid() && old(Repr) <= Repr && fresh(Repr - old(Repr))
      ensures Shows(Gone(v, done + {n}))
    {
      Drop(n, Gone(v, done));
      GoneNext(v, done, n);
    }

    /** The first loop of the listener. */
    method ApplyAll(before: Config, after: Config, level: int, ghost v: View) returns (ok: bool)
      requires Valid() && Shows(v)
      modifies this, Repr
      ensures Valid() && old(Repr) <= Repr && fresh(Repr - old(Repr))
      ensures ok <==> Applicable(before, after)
      ensures ok ==> Shows(Partly(v, after, after.Keys))
    {
      var todo := after.Keys;
      ghost var done: set<string> := {};
      ghost var start := Repr;
      NothingYet(v, after);
      while todo != {}
        invariant Valid() && start <= Repr && fresh(Repr - start)
        invariant SoFar(before, after, todo, done)
        invariant Shows(Partly(v, after, done))
        decreases todo
      {
        var n :| n in todo;
        OneMore(before, after, todo, done, n);
        ok := ApplyNext(n, before, after, level, v, done);
        if !ok {
          return;
        }
        todo, done := todo - {n}, done + {n};
      }
      AllSoFar(before, after, done);
      ok := true;
    }

    static ghost predicate Parted(all: set<string>, todo: set<string>, done: set<string>) {
      todo <= all && done == all - todo
    }

    static lemma {:induction false} PartedNext(all: set<string>, todo: set<string>, done: set<string>, n: string)
      requires Parted(all, todo, done) && n in todo
      ensures n !in done && Parted(all, todo - {n}, done + {n})
    {}

    static lemma {:induction false} PartedEnds(all: set<string>, done: set<string>)
      requires Parted(all, {}, done)
      ensures done == all
    {}

    /** The second loop: names that are no longer defined. */
    method RemoveGone(gone: set<string>, ghost v: View)
      requires Valid() && Shows(v)
      modifies this, Repr
      ensures Valid() && Shows(Gone(v, gone))
      ensures old(Repr) <= Repr && fresh(Repr - old(Repr))
    {
      var todo := gone;
      ghost var done: set<string> := {};
      ghost var start := Repr;
      NothingYet(v, map[]);
      while todo != {}
        invariant Parted(gone, todo, done)
        invariant Valid() && start <= Repr && fresh(Repr - start)
        invariant Shows(Gone(v, done))
        decreases todo
      {
        var n :| n in todo;
        PartedNext(gone, todo, done, n);
        DropNext(n, v, done);
        todo, done := todo - {n}, done + {n};
      }
      PartedEnds(gone, done);
    }

    /** The listener: every new definition first, then the names that are gone; `ok` is false where the
        source follows a null pointer. */
    method Reload(before: Config, after: Config, level: int, ghost v: View) returns (ok: bool)
      requires Valid() && Shows(v)
      modifies this, Repr
      ensures ok <==> Applicable(before, after)
      ensures ok ==> Valid() && Shows(Reloaded(v, before, after))
      ensures old(Repr) <= Repr && fresh(Repr - old(Repr))
    {
      ok := ApplyAll(before, after, level, v);
      if ok {
        RemoveGone(before.Keys - after.Keys, Partly(v, after, after.Keys));
        PartlyThenGone(v, before, after);
      }
    }
  }

  lemma {:induction false} Overwrite(v: View, n: string, x: LoggerView, y: LoggerView)
    ensures v[n := x][n] == x && v[n := x][n := y] == v[n := y]
  {}

  /** The definitions of `names` are applied already. */
  ghost function Partly(v: View, after: Config, names: set<string>): View
    requires names <= after.Keys
  {
    map n | n in v.Keys + names :: if n in names then Configured(Get(v, n), after[n]) else v[n]
  }

  lemma {:induction false} PartlyNext(v: View, after: Config, names: set<string>, n: string)
    requires names + {n} <= after.Keys && n !in names
    ensures var w := Partly(v, after, names);
      w[n := Configured(Get(w, n), after[n])] == Partly(v, after, names + {n})
  {}

  ghost function Gone(v: View, names: set<string>): View {
    map n | n in v.Keys + names :: if n in names then Dropped(Get(v, n)) else v[n]
  }

  lemma {:induction false} GoneNext(v: View, names: set<string>, n: string)
    requires n !in names
    ensures var w := Gone(v, names); w[n := Dropped(Get(w, n))] == Gone(v, names + {n})
  {}

  lemma {:induction false} PartlyThenGone(v: View, before: Config, after: Config)
    ensures Gone(Partly(v, after, after.Keys), before.Keys - after.Keys) == Reloaded(v, before, after)
  {}

  lemma {:induction false} NothingYet(v: View, after: Config)
    ensures Partly(v, after, {}) == v && Gone(v, {}) == v
  {}
}
