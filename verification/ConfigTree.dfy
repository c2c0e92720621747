/** Flattening a YAML tree into dotted names. */
module ConfigTree {
  import opened Seqs

  /** `text` is what a variable at this node is given: the scalar, or the node as the emitter prints it. */
  datatype Node = Leaf(text: string) | Map(text: string, entries: Entries)

  datatype Entries = NoMore | Entry(key: string, value: Node, rest: Entries)

  datatype Listed = Listed(path: string, node: Node)

  predicate NameChar(c: char) { 'a' <= c <= 'z' || '0' <= c <= '9' || c == '.' || c == '_' }

  predicate ValidName(s: string) { forall i :: 0 <= i < |s| ==> NameChar(s[i]) }

  function Extend(prefix: string, key: string): string {
    if prefix == "" then key else prefix + "." + key
  }

  /** Every node with its path, parents first. */
  function Full(prefix: string, node: Node): seq<Listed>
    decreases node
  {
    [Listed(prefix, node)] + if node.Map? then FullAll(prefix, node.entries) else []
  }

  function FullAll(prefix: string, es: Entries): seq<Listed>
    decreases es
  {
    match es
    case NoMore => []
    case Entry(key, value, rest) => Full(Extend(prefix, key), value) + FullAll(prefix, rest)
  }

  /** What `ListAllMember` lists: it gives up a whole subtree at an invalid path. */
  function Pruned(prefix: string, node: Node): seq<Listed>
    decreases node
  {
    if !ValidName(prefix) then []
    else [Listed(prefix, node)] + if node.Map? then PrunedAll(prefix, node.entries) else []
  }

  function PrunedAll(prefix: string, es: Entries): seq<Listed>
    decreases es
  {
    match es
    case NoMore => []
    case Entry(key, value, rest) => Pruned(Extend(prefix, key), value) + PrunedAll(prefix, rest)
  }

  class Listing {
    var items: seq<Listed>

    constructor ()
      ensures items == []
    {
      items := [];
    }
  }

  method ListAllMember(prefix: string, node: Node, output: Listing)
    modifies output
    ensures output.items == old(output.items) + Pruned(prefix, node)
    decreases node, 1
  {
    if !ValidName(prefix) {
      return;
    }
    output.items := output.items + [Listed(prefix, node)];
    if node.Map? {
      ListEntries(prefix, node, output);
      Reassociate(old(output.items), [Listed(prefix, node)], PrunedAll(prefix, node.entries));
    }
  }

  /** The loop over a map's entries. */
  method ListEntries(prefix: string, node: Node, output: Listing)
    requires node.Map?
    modifies output
    ensures output.items == old(output.items) + PrunedAll(prefix, node.entries)
    decreases node, 0
  {
    var es := node.entries;
    while es.Entry?
      invariant es == node.entries || es < node.entries
      invariant old(output.items) + PrunedAll(prefix, node.entries) == output.items + PrunedAll(prefix, es)
      decreases es
    {
      var path := if prefix == "" then es.key else prefix + "." + es.key;
      Reassociate(output.items, Pruned(path, es.value), PrunedAll(prefix, es.rest));
      ListAllMember(path, es.value, output);
      es := es.rest;
    }
  }

  // Pruning is filtering

  function Ok(): Listed -> bool { (x: Listed) => ValidName(x.path) }

  ghost predicate AllUnder(prefix: string, xs: seq<Listed>) {
    forall i :: 0 <= i < |xs| ==> prefix <= xs[i].path
  }

  lemma {:induction false} FullUnder(prefix: string, node: Node)
    ensures AllUnder(prefix, Full(prefix, node))
    decreases node
  {
    if node.Map? {
      FullAllUnder(prefix, node.entries);
    }
  }

  lemma {:induction false} FullAllUnder(prefix: string, es: Entries)
    ensures AllUnder(prefix, FullAll(prefix, es))
    decreases es
  {
    if es.Entry? {
      FullUnder(Extend(prefix, es.key), es.value);
      FullAllUnder(prefix, es.rest);
      assert prefix <= Extend(prefix, es.key);
    }
  }

  /** Listing with pruning lists exactly the nodes whose own path is valid, in the same order. */
  lemma {:induction false} PruningIsFiltering(prefix: string, node: Node)
    ensures Pruned(prefix, node) == Filter(Ok(), Full(prefix, node))
    decreases node
  {
    var xs := Full(prefix, node);
    if !ValidName(prefix) {
      FullUnder(prefix, node);
      var i :| 0 <= i < |prefix| && !NameChar(prefix[i]);
      forall j | 0 <= j < |xs| ensures !Ok()(xs[j]) {
        assert xs[j].path[i] == prefix[i];
      }
      FilterNone(Ok(), xs);
    } else {
      FilterAppend(Ok(), [], Listed(prefix, node));
      assert [] + [Listed(prefix, node)] == [Listed(prefix, node)];
      if node.Map? {
        PruningAllIsFiltering(prefix, node.entries);
        FilterConcat(Ok(), [Listed(prefix, node)], FullAll(prefix, node.entries));
      } else {
        assert [Listed(prefix, node)] + [] == [Listed(prefix, node)];
      }
    }
  }

  lemma {:induction false} PruningAllIsFiltering(prefix: string, es: Entries)
    ensures PrunedAll(prefix, es) == Filter(Ok(), FullAll(prefix, es))
    decreases es
  {
    if es.Entry? {
      var path := Extend(prefix, es.key);
      PruningIsFiltering(path, es.value);
      PruningAllIsFiltering(prefix, es.rest);
      FilterConcat(Ok(), Full(path, es.value), FullAll(prefix, es.rest));
    }
  }

  // Paths are unambiguous

  predicate PlainKey(key: string) { key != "" && '.' !in key }

  predicate HasKey(es: Entries, key: string) {
    es.Entry? && (es.key == key || HasKey(es.rest, key))
  }

  /** Keys are non-empty and dot-free, and no map has the same key twice. */
  predicate PlainKeys(node: Node) { node.Map? ==> PlainEntries(node.entries) }

  predicate PlainEntries(es: Entries) {
    match es
    case NoMore => true
    case Entry(key, value, rest) => PlainKey(key) && !HasKey(rest, key) && PlainKeys(value) && PlainEntries(rest)
  }

  ghost predicate Distinct(xs: seq<Listed>) {
    forall i, j :: 0 <= i < j < |xs| ==> xs[i].path != xs[j].path
  }

  /** The path is `base`, or goes on from it with a dot. */
  predicate Below(base: string, path: string) {
    base <= path && (|path| == |base| || path[|base|] == '.')
  }

  /** Everything below the node at `base`; below the root everything is. */
  ghost predicate AllBelow(base: string, xs: seq<Listed>) {
    base == "" || forall i :: 0 <= i < |xs| ==> Below(base, xs[i].path)
  }

  /** Everything listed for `es` under `prefix` is below one of its keys. */
  ghost predicate BelowSomeKey(prefix: string, es: Entries, path: string) {
    exists key :: HasKey(es, key) && Below(Extend(prefix, key), path)
  }

  lemma {:induction false} TreeBelow(prefix: string, node: Node)
    requires PlainKeys(node)
    ensures AllBelow(prefix, Full(prefix, node))
    decreases node
  {
    if node.Map? {
      EntriesBelow(prefix, node.entries);
      var xs := FullAll(prefix, node.entries);
      forall i | 0 <= i < |xs| && prefix != "" ensures Below(prefix, xs[i].path) {
        var key :| HasKey(node.entries, key) && Below(Extend(prefix, key), xs[i].path);
        assert Extend(prefix, key)[|prefix|] == '.';
      }
    }
  }

  lemma {:induction false} PlainKeysAre(es: Entries, key: string)
    requires PlainEntries(es) && HasKey(es, key)
    ensures PlainKey(key)
    decreases es
  {
    if es.key != key {
      PlainKeysAre(es.rest, key);
    }
  }

  lemma {:induction false} EntriesBelow(prefix: string, es: Entries)
    requires PlainEntries(es)
    ensures forall i :: 0 <= i < |FullAll(prefix, es)| ==> BelowSomeKey(prefix, es, FullAll(prefix, es)[i].path)
    decreases es
  {
    if es.Entry? {
      var base := Extend(prefix, es.key);
      var front, back := Full(base, es.value), FullAll(prefix, es.rest);
      TreeBelow(base, es.value);
      EntriesBelow(prefix, es.rest);
      var all: seq<Listed> := front + back;
      forall i | 0 <= i < |all| ensures BelowSomeKey(prefix, es, all[i].path) {
        if i < |front| {
          assert HasKey(es, es.key) && Below(base, front[i].path);
        } else {
          var key :| HasKey(es.rest, key) && Below(Extend(prefix, key), back[i - |front|].path);
          assert HasKey(es, key);
        }
      }
    }
  }

  /** One path cannot be below two different keys of the same map. */
  lemma {:induction false} KeysPart(prefix: string, k1: string, k2: string, path: string)
    requires PlainKey(k1) && PlainKey(k2)
    requires Below(Extend(prefix, k1), path) && Below(Extend(prefix, k2), path)
    ensures k1 == k2
  {
    var n := if prefix == "" then 0 else |prefix| + 1;
    assert Extend(prefix, k1)[n..] == k1 && Extend(prefix, k2)[n..] == k2;
    assert path[n..n + |k1|] == k1 && path[n..n + |k2|] == k2;
  }

  lemma {:induction false} DistinctPaths(prefix: string, node: Node)
    requires PlainKeys(node)
    ensures Distinct(Full(prefix, node))
    decreases node
  {
    if node.Map? {
      var xs := FullAll(prefix, node.entries);
      DistinctEntries(prefix, node.entries);
      EntriesBelow(prefix, node.entries);
      forall i | 0 <= i < |xs| ensures xs[i].path != prefix {
        var key :| HasKey(node.entries, key) && Below(Extend(prefix, key), xs[i].path);
        PlainKeysAre(node.entries, key);
      }
    }
  }

  lemma {:induction false} DistinctEntries(prefix: string, es: Entries)
    requires PlainEntries(es)
    ensures Distinct(FullAll(prefix, es))
    decreases es
  {
    if es.Entry? {
      var base := Extend(prefix, es.key);
      DistinctPaths(base, es.value);
      DistinctEntries(prefix, es.rest);
      TreeBelow(base, es.value);
      EntriesBelow(prefix, es.rest);
      var front, back := Full(base, es.value), FullAll(prefix, es.rest);
      forall i, j | 0 <= i < |front| && 0 <= j < |back| ensures front[i].path != back[j].path {
        ApartFromRest(prefix, es, front[i].path, back[j].path);
      }
      DistinctConcat(front, back);
    }
  }

  lemma {:induction false} ApartFromRest(prefix: string, es: Entries, p: string, q: string)
    requires es.Entry? && PlainEntries(es)
    requires Below(Extend(prefix, es.key), p) && BelowSomeKey(prefix, es.rest, q)
    ensures p != q
  {
    var key :| HasKey(es.rest, key) && Below(Extend(prefix, key), q);
    if p == q {
      PlainKeysAre(es.rest, key);
      KeysPart(prefix, es.key, key, p);
    }
  }

  lemma {:induction false} DistinctConcat(xs: seq<Listed>, ys: seq<Listed>)
    requires Distinct(xs) && Distinct(ys)
    requires forall i, j :: 0 <= i < |xs| && 0 <= j < |ys| ==> xs[i].path != ys[j].path
    ensures Distinct(xs + ys)
  {}
}
