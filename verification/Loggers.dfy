/** A logger and its appenders: who prints with whose formatter. The specification is generic in the
    appenders' identities; the classes below are proved against it. */
module Loggers {
  import opened Scripts
  import opened Patterns
  import PatternGrammar

  /** The pattern belongs to the grammar of literals and known directives. */
  ghost predicate InGrammar(pattern: string) {
    exists g :: PatternGrammar.WellFormed(g) && PatternGrammar.ShowAll(g) == pattern
  }

  /** A compiled pattern; immutable, so a pointer to it is as good as its pattern. */
  datatype Formatter = Formatter(pattern: string) {
    /** True exactly for the patterns outside the grammar. */
    predicate IsError(): (e: bool)
      ensures e <==> !exists g :: PatternGrammar.WellFormed(g) && PatternGrammar.ShowAll(g) == pattern
    {
      PatternGrammar.AcceptsExactly(pattern);
      Compile(pattern).error
    }
  }

  /** `own` is `m_hasFormatter`: set explicitly rather than taken over from the logger. */
  datatype AppenderState = AppenderState(level: int, own: bool, formatter: Option<Formatter>)

  /** `app` covers every appender in play, attached or not. */
  datatype LoggerState<A> = LoggerState(formatter: Option<Formatter>, attached: seq<A>, app: map<A, AppenderState>)

  datatype Op<A> =
    | Add(a: A)
    | Del(a: A)
    | Clear
    | SetFormatter(formatter: Option<Formatter>)
    | SetOwn(a: A, formatter: Option<Formatter>)

  function RemoveFirst<A(==)>(xs: seq<A>, a: A): seq<A> {
    if xs == [] then [] else if xs[0] == a then xs[1..] else [xs[0]] + RemoveFirst(xs[1..], a)
  }

  predicate Known<A>(s: LoggerState<A>, op: Op<A>) {
    match op
    case Add(a) => a in s.app
    case SetOwn(a, _) => a in s.app
    case _ => true
  }

  function Apply<A>(s: LoggerState<A>, op: Op<A>): LoggerState<A>
    requires Known(s, op)
  {
    match op
    case Add(a) =>
      var x := s.app[a];
      var x' := if x.formatter == None then x.(formatter := s.formatter, own := false) else x;
      s.(attached := s.attached + [a], app := s.app[a := x'])
    case Del(a) => s.(attached := RemoveFirst(s.attached, a))
    case Clear => s.(attached := [])
    case SetFormatter(f) =>
      s.(formatter := f,
         app := map a | a in s.app ::
           if a in s.attached && !s.app[a].own then s.app[a].(formatter := f, own := false) else s.app[a])
    case SetOwn(a, f) => s.(app := s.app[a := s.app[a].(formatter := f, own := f.Some?)])
  }

  // Inheritance

  /** An explicitly formatted appender has a formatter. */
  ghost predicate OwnOk<A>(s: LoggerState<A>) {
    forall a :: a in s.app && s.app[a].own ==> s.app[a].formatter.Some?
  }

  /** Every attached appender without a formatter of its own prints with the logger's current one. */
  ghost predicate Inherits<A>(s: LoggerState<A>) {
    && OwnOk(s)
    && (forall a :: a in s.attached ==> a in s.app && (!s.app[a].own ==> s.app[a].formatter == s.formatter))
  }

  /** What the callers keep to: an appender is attached once, and either fresh or explicitly formatted. */
  ghost predicate Orderly<A>(s: LoggerState<A>, op: Op<A>) {
    match op
    case Add(a) => a in s.app && a !in s.attached && (s.app[a].own || s.app[a].formatter == None)
    case SetOwn(a, f) => a in s.app && f.Some?
    case _ => true
  }

  lemma {:induction false} RemovedStays<A>(xs: seq<A>, a: A)
    ensures forall x :: x in RemoveFirst(xs, a) ==> x in xs
  {
    if xs != [] && xs[0] != a {
      RemovedStays(xs[1..], a);
    }
  }

  lemma {:induction false} RemovedAt<A>(xs: seq<A>, a: A, i: nat)
    requires i <= |xs| && forall j :: 0 <= j < i ==> xs[j] != a
    requires i < |xs| ==> xs[i] == a
    ensures RemoveFirst(xs, a) == if i < |xs| then xs[..i] + xs[i + 1..] else xs
  {
    if i > 0 {
      RemovedAt(xs[1..], a, i - 1);
      assert xs == [xs[0]] + xs[1..];
      assert i < |xs| ==> xs[..i] + xs[i + 1..] == [xs[0]] + (xs[1..][..i - 1] + xs[1..][i..]);
    }
  }

  lemma {:induction false} OpKeepsInheritance<A>(s: LoggerState<A>, op: Op<A>)
    requires Inherits(s) && Orderly(s, op)
    ensures Inherits(Apply(s, op))
  {
    if op.Del? {
      RemovedStays(s.attached, op.a);
    }
  }

  /** Attaching keeps the inheritance exactly when the appender is fresh, explicitly formatted, or
      happens to hold the logger's present formatter already. */
  lemma {:induction false} AddKeepsInheritanceIff<A>(s: LoggerState<A>, a: A)
    requires Inherits(s) && a in s.app && a !in s.attached
    ensures Inherits(Apply(s, Add(a))) <==>
      s.app[a].formatter == None || s.app[a].own || s.app[a].formatter == s.formatter
  {
    var s' := Apply(s, Add(a));
    assert s'.attached[|s.attached|] == a;
    assert forall b :: b in s'.attached <==> b in s.attached || b == a;
  }

  ghost predicate OrderlyRun<A>(s: LoggerState<A>, ops: seq<Op<A>>)
    decreases |ops|
  {
    ops == [] || (Orderly(s, ops[0]) && OrderlyRun(Apply(s, ops[0]), ops[1..]))
  }

  function ApplyAll<A>(s: LoggerState<A>, ops: seq<Op<A>>): LoggerState<A>
    requires OrderlyRun(s, ops)
    decreases |ops|
  {
    if ops == [] then s else ApplyAll(Apply(s, ops[0]), ops[1..])
  }

  /** The formatter `a` was last given explicitly, if the calls gave it one. */
  function LastOwn<A(==)>(ops: seq<Op<A>>, a: A): Option<Option<Formatter>> {
    if ops == [] then None
    else
      var later := LastOwn(ops[1..], a);
      if later.Some? then later
      else if ops[0].SetOwn? && ops[0].a == a then Some(ops[0].formatter) else None
  }

  lemma {:induction false} OwnStays<A>(s: LoggerState<A>, op: Op<A>, a: A)
    requires OwnOk(s) && Orderly(s, op) && a in s.app && s.app[a].own
    ensures var s' := Apply(s, op);
      OwnOk(s') && a in s'.app && s'.app[a].own
      && s'.app[a].formatter == if op.SetOwn? && op.a == a then op.formatter else s.app[a].formatter
  {}

  lemma {:induction false} OwnIsKept<A>(s: LoggerState<A>, ops: seq<Op<A>>, a: A)
    requires OwnOk(s) && OrderlyRun(s, ops) && a in s.app && s.app[a].own
    ensures var x := ApplyAll(s, ops).app;
      && a in x && x[a].own
      && x[a].formatter == if LastOwn(ops, a).Some? then LastOwn(ops, a).value else s.app[a].formatter
    decreases |ops|
  {
    if ops != [] {
      OwnStays(s, ops[0], a);
      OwnIsKept(Apply(s, ops[0]), ops[1..], a);
    }
  }

  lemma {:induction false} GivenIsKept<A>(s: LoggerState<A>, ops: seq<Op<A>>, a: A)
    requires OwnOk(s) && OrderlyRun(s, ops) && LastOwn(ops, a).Some?
    ensures var x := ApplyAll(s, ops).app;
      a in x && x[a].own && x[a].formatter == LastOwn(ops, a).value
    decreases |ops|
  {
    var s1 := Apply(s, ops[0]);
    assert OwnOk(s1);
    if LastOwn(ops[1..], a).Some? {
      GivenIsKept(s1, ops[1..], a);
    } else {
      OwnIsKept(s1, ops[1..], a);
    }
  }

  /** What an appender with a formatter of its own prints with after the calls: the one last given. */
  ghost predicate KeepsOwn<A>(s: LoggerState<A>, ops: seq<Op<A>>, a: A)
    requires OrderlyRun(s, ops)
  {
    var x := ApplyAll(s, ops).app;
    match LastOwn(ops, a)
    case Some(f) => a in x && x[a].own && x[a].formatter == f
    case None => a in s.app && s.app[a].own ==> a in x && x[a].own && x[a].formatter == s.app[a].formatter
  }

  /** After any orderly sequence of calls, every attached appender prints with the logger's current
      formatter unless it has its own; and one that was ever given its own, before or during the calls,
      has the one it was last given. */
  lemma {:induction false} InheritanceOverRuns<A>(s: LoggerState<A>, ops: seq<Op<A>>)
    requires Inherits(s) && OrderlyRun(s, ops)
    ensures Inherits(ApplyAll(s, ops))
    ensures forall a :: KeepsOwn(s, ops, a)
    decreases |ops|
  {
    if ops != [] {
      OpKeepsInheritance(s, ops[0]);
      InheritanceOverRuns(Apply(s, ops[0]), ops[1..]);
    }
    forall a ensures KeepsOwn(s, ops, a) {
      if LastOwn(ops, a).Some? {
        GivenIsKept(s, ops, a);
      } else if a in s.app && s.app[a].own {
        OwnIsKept(s, ops, a);
      }
    }
  }

  /** Detached, then attached again after the logger's formatter changed: the appender keeps the old one. */
  lemma {:induction false} ReattachedIsStale(f: Formatter, g: Formatter)
    requires f != g
    ensures var s := LoggerState(Some(f), [], map[0 := AppenderState(0, false, None)]);
      var s' := Apply(Apply(Apply(Apply(s, Add(0)), Del(0)), SetFormatter(Some(g))), Add(0));
      s'.attached == [0] && s'.formatter == Some(g) && s'.app[0] == AppenderState(0, false, Some(f)) && !Inherits(s')
  {
    var s := LoggerState(Some(f), [], map[0 := AppenderState(0, false, None)]);
    var s1 := Apply(s, Add(0));
    assert s1.attached == [0] && s1.app[0] == AppenderState(0, false, Some(f));
    var s2 := Apply(s1, Del(0));
    assert s2.attached == [] && s2.app == s1.app;
    var s3 := Apply(s2, SetFormatter(Some(g)));
    assert s3.app[0] == s2.app[0];
    var s4 := Apply(s3, Add(0));
    assert s4.attached == [0] && s4.attached[0] == 0;
  }

  /** An appender given a null formatter is as fresh as a new one: it takes the next formatter it is offered,
      by the logger it is attached to or by the one it is attached to next. */
  lemma {:induction false} NullMakesFresh<A>(s: LoggerState<A>, a: A, f: Formatter)
    requires a in s.app
    ensures var s1 := Apply(s, SetOwn(a, None));
      && a in s1.app && !s1.app[a].own && s1.app[a].formatter == None
      && (a in s.attached ==> Apply(s1, Op.SetFormatter(Some(f))).app[a].formatter == Some(f))
      && Apply(s1, Add(a)).app[a].formatter == s.formatter && !Apply(s1, Add(a)).app[a].own
  {}

  // The classes

  datatype Kind = File(path: string) | Stdout

  class LogAppender {
    const kind: Kind
    var level: int
    var hasFormatter: bool
    var formatter: Option<Formatter>
    ghost const maker: string   // the logger it was made for, if a configuration made it

    /** `m_level` has no initial value in the source. */
    constructor (kind: Kind, level: int, ghost maker: string)
      ensures this.kind == kind && State() == AppenderState(level, false, None) && this.maker == maker
    {
      this.kind, this.level, hasFormatter, formatter, this.maker := kind, level, false, None, maker;
    }

    function State(): AppenderState
      reads this
    {
      AppenderState(level, hasFormatter, formatter)
    }

    method SetInherited(val: Option<Formatter>, has: bool)
      modifies this`formatter, this`hasFormatter
      ensures State() == old(State()).(formatter := val, own := has)
    {
      formatter := val;
      hasFormatter := has;
    }

    method SetFormatter(val: Option<Formatter>)
      modifies this`formatter, this`hasFormatter
      ensures State() == old(State()).(formatter := val, own := val.Some?)
    {
      formatter := val;
      if formatter.Some? {
        hasFormatter := true;
      } else {
        hasFormatter := false;
      }
    }
  }

  class Logger {
    const name: string
    const root: Logger?   // set right after construction in the source; null for the root logger itself
    var level: int
    var appenders: seq<LogAppender>
    var formatter: Option<Formatter>

    constructor (name: string, level: int, formatter: Formatter, root: Logger?)
      ensures this.name == name && this.root == root && this.level == level
      ensures this.formatter == Some(formatter) && appenders == []
    {
      this.name, this.root, this.level, this.formatter, appenders := name, root, level, Some(formatter), [];
    }

    /** The logger together with the appenders `objs`. */
    ghost function State(objs: set<LogAppender>): LoggerState<LogAppender>
      reads this, objs
    {
      LoggerState(formatter, appenders, map a | a in objs :: a.State())
    }

    method AddAppender(a: LogAppender, ghost objs: set<LogAppender>)
      requires a in objs
      modifies this`appenders, a`formatter, a`hasFormatter
      ensures State(objs) == Apply(old(State(objs)), Add(a))
    {
      if a.formatter == None {
        a.SetInherited(formatter, false);
      }
      appenders := appenders + [a];
    }

    method DelAppender(a: LogAppender, ghost objs: set<LogAppender>)
      modifies this`appenders
      ensures State(objs) == Apply(old(State(objs)), Del(a))
    {
      var i := 0;
      while i < |appenders|
        invariant i <= |appenders| && appenders == old(appenders)
        invariant forall j :: 0 <= j < i ==> appenders[j] != a
      {
        if appenders[i] == a {
          RemovedAt(appenders, a, i);
          appenders := appenders[..i] + appenders[i + 1..];
          return;
        }
        i := i + 1;
      }
      RemovedAt(appenders, a, i);
    }

    method ClearAppender(ghost objs: set<LogAppender>)
      modifies this`appenders
      ensures State(objs) == Apply(old(State(objs)), Clear)
    {
      appenders := [];
    }

    method SetFormatter(val: Option<Formatter>, ghost objs: set<LogAppender>)
      requires forall a :: a in appenders ==> a in objs
      modifies this`formatter, set a | a in appenders
      ensures State(objs) == Apply(old(State(objs)), Op.SetFormatter(val))
    {
      formatter := val;
      for i := 0 to |appenders|
        invariant formatter == val
        invariant forall a :: a in objs ==>
          a.State() == if a in appenders[..i] && !old(a.hasFormatter)
                       then old(a.State()).(formatter := val, own := false) else old(a.State())
      {
        assert appenders[..i + 1] == appenders[..i] + [appenders[i]];
        if !appenders[i].hasFormatter {
          appenders[i].SetInherited(val, false);
        }
      }
      assert appenders[..|appenders|] == appenders;
    }

    /** The overload for a pattern: an erroneous one is ignored. */
    method SetPattern(val: string, ghost objs: set<LogAppender>)
      requires forall a :: a in appenders ==> a in objs
      modifies this`formatter, set a | a in appenders
      ensures !InGrammar(val) ==> State(objs) == old(State(objs))
      ensures InGrammar(val) ==> State(objs) == Apply(old(State(objs)), Op.SetFormatter(Some(Formatter(val))))
    {
      var f := Formatter(val);
      if f.IsError() {
        return;
      }
      SetFormatter(Some(f), objs);
    }
  }
}
