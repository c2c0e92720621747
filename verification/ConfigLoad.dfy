/** Configuration variables and the loading of a tree into them. */
module ConfigLoad {
  import opened Scripts
  import opened Seqs
  import opened ConfigTree

  /** `tolower` over the whole name. */
  function Lower(c: char): char { if 'A' <= c <= 'Z' then c - 'A' + 'a' else c }

  function ToLower(s: string): string { seq(|s|, i requires 0 <= i < |s| => Lower(s[i])) }

  lemma {:induction false} LowerOfValid(s: string)
    requires ValidName(s)
    ensures ToLower(s) == s
  {
    assert forall i :: 0 <= i < |s| ==> NameChar(s[i]) && ToLower(s)[i] == s[i];
  }

  /** A variable after the texts given to it in turn; a text that does not convert is ignored. */
  function ValueAfter<V(==)>(convert: string -> Option<V>, v: V, texts: seq<string>): V {
    if texts == [] then v
    else
      var c := convert(texts[|texts| - 1]);
      if c.Some? then c.value else ValueAfter(convert, v, texts[..|texts| - 1])
  }

  /** What its listeners have been told: (old value, new value) whenever the value really changed. */
  function ToldAfter<V(==)>(convert: string -> Option<V>, v: V, texts: seq<string>): seq<(V, V)> {
    if texts == [] then []
    else
      var init := texts[..|texts| - 1];
      var before, c := ValueAfter(convert, v, init), convert(texts[|texts| - 1]);
      ToldAfter(convert, v, init) + if c.Some? && c.value != before then [(before, c.value)] else []
  }

  class ConfigVar<V(==)> {
    const name: string
    const kind: nat         // which C++ type `T` it is
    const convert: string -> Option<V>
    var val: V
    var told: seq<(V, V)>   // to every listener

    constructor (name: string, kind: nat, val: V, convert: string -> Option<V>)
      ensures this.name == name && this.kind == kind && this.val == val && this.convert == convert && told == []
    {
      this.name, this.kind, this.val, this.convert, told := name, kind, val, convert, [];
    }

    method SetValue(v: V)
      modifies this
      ensures val == v && told == if v == old(val) then old(told) else old(told) + [(old(val), v)]
    {
      if v == val {
        return;
      }
      told := told + [(val, v)];
      val := v;
    }

    /** Always answers false, whether the text converted or not. */
    method FromString(text: string) returns (ok: bool)
      modifies this
      ensures !ok
      ensures val == ValueAfter(convert, old(val), [text])
      ensures told == old(told) + ToldAfter(convert, old(val), [text])
    {
      ok := false;
      var c := convert(text);
      assert [text][..0] == [];
      if c.Some? {
        SetValue(c.value);
      }
    }
  }

  lemma {:induction false} AfterOneMore<V>(convert: string -> Option<V>, v: V, texts: seq<string>, text: string)
    ensures ValueAfter(convert, v, texts + [text]) == ValueAfter(convert, ValueAfter(convert, v, texts), [text])
    ensures ToldAfter(convert, v, texts + [text])
      == ToldAfter(convert, v, texts) + ToldAfter(convert, ValueAfter(convert, v, texts), [text])
  {
    assert (texts + [text])[..|texts|] == texts && [text][..0] == [];
  }

  /** The value is the last text that converts, and the first value if none does. */
  lemma {:induction false} LastConverts<V>(convert: string -> Option<V>, v: V, texts: seq<string>, k: nat)
    requires k <= |texts| && forall i :: k <= i < |texts| ==> convert(texts[i]) == None
    ensures k == 0 ==> ValueAfter(convert, v, texts) == v
    ensures k > 0 && convert(texts[k - 1]).Some? ==> ValueAfter(convert, v, texts) == convert(texts[k - 1]).value
    decreases |texts|
  {
    if k < |texts| {
      LastConverts(convert, v, texts[..|texts| - 1], k);
    }
  }

  /** The texts listed for one name, in order. */
  function TextsAt(xs: seq<Listed>, name: string): seq<string> {
    if xs == [] then []
    else
      var last := xs[|xs| - 1];
      TextsAt(xs[..|xs| - 1], name) + if last.path == name then [last.node.text] else []
  }

  lemma {:induction false} TextsOfFilter(xs: seq<Listed>, name: string)
    requires ValidName(name)
    ensures TextsAt(Filter(Ok(), xs), name) == TextsAt(xs, name)
    decreases |xs|
  {
    if xs != [] {
      var init, last := xs[..|xs| - 1], xs[|xs| - 1];
      TextsOfFilter(init, name);
      if Ok()(last) {
        assert Filter(Ok(), xs) == Filter(Ok(), init) + [last];
        assert Filter(Ok(), xs)[..|Filter(Ok(), init)|] == Filter(Ok(), init);
      } else {
        assert Filter(Ok(), xs) == Filter(Ok(), init);
      }
    }
  }

  /** Texts come in the order of the listing. */
  lemma {:induction false} TextsInOrder(xs: seq<Listed>, ys: seq<Listed>, name: string)
    ensures TextsAt(xs + ys, name) == TextsAt(xs, name) + TextsAt(ys, name)
    ensures |ys| == 1 ==> TextsAt(ys, name) == if ys[0].path == name then [ys[0].node.text] else []
    decreases |ys|
  {
    if ys == [] {
      assert xs + ys == xs;
    } else {
      var init, last := ys[..|ys| - 1], ys[|ys| - 1];
      TextsInOrder(xs, init, name);
      assert (xs + ys)[..|xs + ys| - 1] == xs + init;
      Reassociate(TextsAt(xs, name), TextsAt(init, name), if last.path == name then [last.node.text] else []);
    }
  }

  lemma {:induction false} TextsOfDistinct(xs: seq<Listed>, name: string)
    requires Distinct(xs)
    ensures |TextsAt(xs, name)| <= 1
    ensures |TextsAt(xs, name)| == 1 ==>
      exists i :: 0 <= i < |xs| && xs[i].path == name && TextsAt(xs, name) == [xs[i].node.text]
    ensures TextsAt(xs, name) == [] ==> forall i :: 0 <= i < |xs| ==> xs[i].path != name
    decreases |xs|
  {
    if xs != [] {
      var init, last := xs[..|xs| - 1], xs[|xs| - 1];
      TextsOfDistinct(init, name);
      if |TextsAt(init, name)| == 1 {
        var i :| 0 <= i < |init| && init[i].path == name && TextsAt(init, name) == [init[i].node.text];
        assert xs[i] == init[i] && last.path != name;
      } else {
        assert TextsAt(init, name) == [];
        assert xs[|xs| - 1] == last;
      }
    }
  }

  lemma {:induction false} PrunedValid(root: Node)
    ensures forall i :: 0 <= i < |Pruned("", root)| ==> ValidName(Pruned("", root)[i].path)
  {
    PruningIsFiltering("", root);
    FilterOk(Full("", root));
  }

  lemma {:induction false} FilterOk(xs: seq<Listed>)
    ensures forall i :: 0 <= i < |Filter(Ok(), xs)| ==> ValidName(Filter(Ok(), xs)[i].path)
    decreases |xs|
  {
    if xs != [] {
      FilterOk(xs[..|xs| - 1]);
    }
  }

  /** Giving up on subtrees with invalid names never costs a registered variable its value. */
  lemma {:induction false} PruningIsHarmless(root: Node, name: string)
    requires ValidName(name)
    ensures TextsAt(Pruned("", root), name) == TextsAt(Full("", root), name)
  {
    PruningIsFiltering("", root);
    TextsOfFilter(Full("", root), name);
  }

  /** In a tree with plain keys a name is given at most one text: that of the node at its path. */
  lemma {:induction false} OneTextPerName(root: Node, name: string)
    requires PlainKeys(root) && ValidName(name)
    ensures var xs := Full("", root);
      || (TextsAt(xs, name) == [] && forall i :: 0 <= i < |xs| ==> xs[i].path != name)
      || (exists i :: 0 <= i < |xs| && xs[i].path == name && TextsAt(xs, name) == [xs[i].node.text])
  {
    DistinctPaths("", root);
    TextsOfDistinct(Full("", root), name);
  }

  /** The listeners are told a chain of changes that leads from the first value to the last. */
  lemma {:induction false} ToldIsAChain<V>(convert: string -> Option<V>, v: V, texts: seq<string>)
    ensures var told := ToldAfter(convert, v, texts);
      && (told == [] ==> ValueAfter(convert, v, texts) == v)
      && (told != [] ==> told[0].0 == v && told[|told| - 1].1 == ValueAfter(convert, v, texts))
      && (forall i :: 0 <= i < |told| ==> told[i].0 != told[i].1)
      && (forall i :: 0 < i < |told| ==> told[i].0 == told[i - 1].1)
    decreases |texts|
  {
    if texts != [] {
      ToldIsAChain(convert, v, texts[..|texts| - 1]);
    }
  }

  /** `OtherType` is the null pointer for a name taken by a variable of another type, `InvalidName` the
      exception `invalid_argument`. */
  datatype Looked<V(==)> = Found(v: ConfigVar<V>) | OtherType | InvalidName

  /** The registry; values of all types are drawn from `V`. */
  class Config<V(==)> {
    var vars: map<string, ConfigVar<V>>

    ghost predicate Valid()
      reads this, vars.Values
    {
      forall n :: n in vars ==> vars[n].name == n && ValidName(n)
    }

    constructor ()
      ensures Valid() && vars == map[]
    {
      vars := map[];
    }

    /** `Lookup` with a default. */
    method Lookup(name: string, kind: nat, initial: V, convert: string -> Option<V>) returns (r: Looked<V>)
      requires Valid()
      modifies this
      ensures Valid()
      ensures name in old(vars) ==>
        vars == old(vars) && r == if old(vars)[name].kind == kind then Found(old(vars)[name]) else OtherType
      ensures name !in old(vars) && !ValidName(name) ==> r == InvalidName && vars == old(vars)
      ensures name !in old(vars) && ValidName(name) ==>
        r.Found? && fresh(r.v) && vars == old(vars)[name := r.v]
      ensures name !in old(vars) && ValidName(name) ==>
        && r.v.name == name && r.v.kind == kind && r.v.val == initial
        && r.v.convert == convert && r.v.told == []
    {
      if name in vars {
        if vars[name].kind == kind {
          return Found(vars[name]);
        } else {
          return OtherType;
        }
      }
      if !ValidName(name) {
        return InvalidName;
      }
      var v := new ConfigVar(name, kind, initial, convert);
      vars := vars[name := v];
      r := Found(v);
    }

    /** `Lookup` without a default: null for a missing name and for another type. */
    method Find(name: string, kind: nat) returns (r: ConfigVar?<V>)
      ensures r == if name in vars && vars[name].kind == kind then vars[name] else null
    {
      r := LookupBase(name);
      if r != null && r.kind != kind {
        r := null;
      }
    }

    method LookupBase(name: string) returns (r: ConfigVar?<V>)
      ensures r == if name in vars then vars[name] else null
    {
      if name in vars {
        r := vars[name];
      } else {
        r := null;
      }
    }

    /** The variable `n` has been given `texts` since it had value `v` and had told `t`. */
    ghost predicate Given(n: string, v: V, t: seq<(V, V)>, texts: seq<string>)
      reads this, vars.Values
      requires n in vars
    {
      && vars[n].val == ValueAfter(vars[n].convert, v, texts)
      && vars[n].told == t + ToldAfter(vars[n].convert, v, texts)
    }

    /** The texts of `xs` that reach the variable `n`: none reaches the empty name. */
    static function Reaching(xs: seq<Listed>, n: string): seq<string> { if n == "" then [] else TextsAt(xs, n) }

    /** Every variable ends with the last text listed for its name that converted, and its listeners
        are told each change on the way. A variable with the empty name is never loaded. */
    method LoadFromYaml(root: Node)
      requires Valid()
      modifies vars.Values
      ensures Valid() && vars == old(vars)
      ensures forall n :: n in vars ==>
        Given(n, old(vars[n].val), old(vars[n].told), if n == "" then [] else TextsAt(Full("", root), n))
      ensures "" in vars ==> vars[""].val == old(vars[""].val) && vars[""].told == old(vars[""].told)
    {
      var all := new Listing();
      ListAllMember("", root, all);
      ghost var items := Pruned("", root);
      assert all.items == items;
      PrunedValid(root);
      LoadItems(all.items);
      forall n | n in vars
        ensures Given(n, old(vars[n].val), old(vars[n].told), Reaching(Full("", root), n))
      {
        ReachingPruned(root, n);
        assert Given(n, old(vars[n].val), old(vars[n].told), Reaching(items, n));
      }
    }

    static lemma {:induction false} ReachingPruned(root: Node, n: string)
      requires ValidName(n)
      ensures Reaching(Pruned("", root), n) == Reaching(Full("", root), n)
    {
      PruningIsHarmless(root, n);
    }

    /** `start` has each variable's value and history before the load. */
    ghost predicate AllGiven(start: map<string, (V, seq<(V, V)>)>, items: seq<Listed>)
      reads this, vars.Values
      requires start.Keys == vars.Keys
    {
      forall n :: n in vars ==> Given(n, start[n].0, start[n].1, Reaching(items, n))
    }

    method LoadItems(items: seq<Listed>)
      requires Valid() && forall i :: 0 <= i < |items| ==> ValidName(items[i].path)
      modifies vars.Values
      ensures Valid() && vars == old(vars)
      ensures forall n :: n in vars ==> Given(n, old(vars[n].val), old(vars[n].told), Reaching(items, n))
    {
      ghost var start := map n | n in vars :: (vars[n].val, vars[n].told);
      for k := 0 to |items|
        invariant Valid() && vars == old(vars)
        invariant AllGiven(start, items[..k])
      {
        assert items[..k + 1] == items[..k] + [items[k]];
        GiveNext(items[k], start, items[..k]);
      }
      assert items[..|items|] == items;
    }

    method GiveNext(item: Listed, ghost start: map<string, (V, seq<(V, V)>)>, ghost before: seq<Listed>)
      requires Valid() && ValidName(item.path) && start.Keys == vars.Keys && AllGiven(start, before)
      modifies vars.Values
      ensures Valid() && vars == old(vars) && AllGiven(start, before + [item])
    {
      GiveItem(item);
      forall n | n in vars ensures Given(n, start[n].0, start[n].1, Reaching(before + [item], n)) {
        ReachingMore(vars[n].convert, start[n].0, before, item, n);
        Reassociate(start[n].1, ToldAfter(vars[n].convert, start[n].0, Reaching(before, n)),
                    ToldAfter(vars[n].convert, old(vars[n].val), TextFor(item, n)));
        assert old(Given(n, start[n].0, start[n].1, Reaching(before, n)));
      }
    }

    /** The text that the item brings to the variable `n`, if any. */
    static function TextFor(item: Listed, n: string): seq<string> {
      if n != "" && n == item.path then [item.node.text] else []
    }

    static lemma {:induction false} ReachingMore(convert: string -> Option<V>, v: V, before: seq<Listed>,
                                                item: Listed, n: string)
      ensures var v1 := ValueAfter(convert, v, Reaching(before, n));
        && ValueAfter(convert, v, Reaching(before + [item], n)) == ValueAfter(convert, v1, TextFor(item, n))
        && ToldAfter(convert, v, Reaching(before + [item], n))
          == ToldAfter(convert, v, Reaching(before, n)) + ToldAfter(convert, v1, TextFor(item, n))
    {
      assert (before + [item])[..|before|] == before;
      var texts := Reaching(before, n);
      if n != "" && n == item.path {
        AfterOneMore(convert, v, texts, item.node.text);
      } else {
        assert texts + [] == texts;
        assert Reaching(before + [item], n) == texts;
        assert ToldAfter(convert, v, texts) + [] == ToldAfter(convert, v, texts);
      }
    }

    /** The body of the loading loop. */
    method GiveItem(item: Listed)
      requires Valid() && ValidName(item.path)
      modifies vars.Values
      ensures Valid() && vars == old(vars)
      ensures forall n :: n in vars ==>
        Given(n, old(vars[n].val), old(vars[n].told), TextFor(item, n))
    {
      var key := item.path;
      if key == "" {
        return;
      }
      LowerOfValid(key);
      key := ToLower(key);
      var base := LookupBase(key);
      if base != null {
        var _ := base.FromString(item.node.text);
        assert forall n :: n in vars && n != key ==> vars[n] != base;
      }
    }
  }
}
