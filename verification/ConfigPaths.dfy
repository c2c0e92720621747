/** What the listing of a tree contains, and in which order, told by the keys that lead to a node. */
module ConfigPaths {
  import opened Seqs
  import opened ConfigTree

  lemma {:induction false} NameChars(c: char)
    ensures NameChar(c) <==> c in "abcdefghijklmnopqrstuvwxyz" || c in "._0123456789"
  {
    var letters := "abcdefghijklmnopqrstuvwxyz";
    var others := "._0123456789";
    assert |letters| == 26 && forall i :: 0 <= i < 26 ==> letters[i] == 'a' + i as char;
    assert |others| == 12 && others[0] == '.' && others[1] == '_';
    assert forall i :: 2 <= i < 12 ==> others[i] == '0' + (i - 2) as char;
    if 'a' <= c <= 'z' {
      assert letters[(c - 'a') as int] == c;
    }
    if '0' <= c <= '9' {
      assert others[(c - '0') as int + 2] == c;
    }
  }

  ghost predicate HasEntry(es: Entries, key: string, value: Node) {
    es.Entry? && ((es.key == key && es.value == value) || HasEntry(es.rest, key, value))
  }

  /** `b` stands under a key of the map `a`, one step below it. */
  ghost predicate IsChild(a: Listed, b: Listed) {
    a.node.Map? && exists key :: HasEntry(a.node.entries, key, b.node) && IsBelow(a.path, key, b.path)
  }

  predicate IsBelow(prefix: string, key: string, path: string) {
    path == if prefix == "" then key else prefix + "." + key
  }

  ghost predicate ParentBefore(xs: seq<Listed>, j: nat)
    requires j < |xs|
  {
    exists i :: 0 <= i < j && IsChild(xs[i], xs[j])
  }

  lemma {:induction false} HeadIsChild(a: Listed, key: string, value: Node, path: string)
    requires a.node.Map? && HasEntry(a.node.entries, key, value) && IsBelow(a.path, key, path)
    ensures IsChild(a, Listed(path, value))
  {}

  /** The element at `j` comes after its parent, which is listed before it or is `a`. */
  ghost predicate Follows(a: Listed, xs: seq<Listed>, j: nat)
    requires j < |xs|
  {
    IsChild(a, xs[j]) || ParentBefore(xs, j)
  }

  lemma {:induction false} FollowsInFront(a: Listed, front: seq<Listed>, back: seq<Listed>, j: nat)
    requires j < |front| && Follows(a, front, j)
    ensures Follows(a, front + back, j)
  {
    assert (front + back)[j] == front[j];
    if !IsChild(a, front[j]) {
      var i :| 0 <= i < j && IsChild(front[i], front[j]);
      assert (front + back)[i] == front[i];
    }
  }

  lemma {:induction false} FollowsInBack(a: Listed, front: seq<Listed>, back: seq<Listed>, j: nat)
    requires j < |back| && Follows(a, back, j)
    ensures Follows(a, front + back, |front| + j)
  {
    assert (front + back)[|front| + j] == back[j];
    if !IsChild(a, back[j]) {
      var i :| 0 <= i < j && IsChild(back[i], back[j]);
      assert (front + back)[|front| + i] == back[i];
    }
  }

  lemma {:induction false} FollowsHead(a: Listed, kids: seq<Listed>, j: nat)
    requires j < |kids| && Follows(a, kids, j)
    ensures ParentBefore([a] + kids, j + 1)
  {
    var all := [a] + kids;
    assert all[0] == a && all[j + 1] == kids[j];
    if !IsChild(a, kids[j]) {
      var i :| 0 <= i < j && IsChild(kids[i], kids[j]);
      assert all[i + 1] == kids[i];
    }
  }

  /** The node itself comes first, and every other listed node after its parent. */
  lemma {:induction false} ParentsFirst(prefix: string, node: Node, j: nat)
    requires j < |Full(prefix, node)|
    ensures Full(prefix, node)[0] == Listed(prefix, node)
    ensures j > 0 ==> ParentBefore(Full(prefix, node), j)
    decreases node
  {
    if j > 0 {
      var kids := FullAll(prefix, node.entries);
      EntriesFollow(prefix, node.entries, Listed(prefix, node), j - 1);
      FollowsHead(Listed(prefix, node), kids, j - 1);
    }
  }

  lemma {:induction false} EntriesFollow(prefix: string, es: Entries, a: Listed, j: nat)
    requires a.node.Map? && a.path == prefix && j < |FullAll(prefix, es)|
    requires forall key, value :: HasEntry(es, key, value) ==> HasEntry(a.node.entries, key, value)
    ensures Follows(a, FullAll(prefix, es), j)
    decreases es
  {
    var path := Extend(prefix, es.key);
    var front, back := Full(path, es.value), FullAll(prefix, es.rest);
    if j < |front| {
      ParentsFirst(path, es.value, j);
      if j == 0 {
        assert HasEntry(es, es.key, es.value);
        HeadIsChild(a, es.key, es.value, path);
      }
      FollowsInFront(a, front, back, j);
    } else {
      EntriesFollow(prefix, es.rest, a, j - |front|);
      FollowsInBack(a, front, back, j - |front|);
    }
  }

  // Everything is listed, entry after entry

  ghost predicate IsListed(xs: seq<Listed>, x: Listed) { exists i :: 0 <= i < |xs| && xs[i] == x }

  lemma {:induction false} ListedInSum(xs: seq<Listed>, ys: seq<Listed>, x: Listed)
    ensures IsListed(xs + ys, x) <==> IsListed(xs, x) || IsListed(ys, x)
  {
    if IsListed(xs, x) {
      var i :| 0 <= i < |xs| && xs[i] == x;
      assert (xs + ys)[i] == x;
    }
    if IsListed(ys, x) {
      var i :| 0 <= i < |ys| && ys[i] == x;
      assert (xs + ys)[|xs| + i] == x;
    }
  }

  /** The whole listing of a value is part of the listing of its map. */
  lemma {:induction false} EntryListed(prefix: string, es: Entries, key: string, value: Node, path: string, x: Listed)
    requires HasEntry(es, key, value) && IsBelow(prefix, key, path) && IsListed(Full(path, value), x)
    ensures IsListed(FullAll(prefix, es), x)
    decreases es
  {
    ListedInSum(Full(Extend(prefix, es.key), es.value), FullAll(prefix, es.rest), x);
    if !(es.key == key && es.value == value) {
      EntryListed(prefix, es.rest, key, value, path, x);
    }
  }

  /** A listed map's entries are listed too, and the first of them comes right after it. */
  lemma {:induction false} ChildrenListed(prefix: string, node: Node, key: string, value: Node, path: string)
    requires node.Map? && HasEntry(node.entries, key, value) && IsBelow(prefix, key, path)
    ensures IsListed(Full(prefix, node), Listed(path, value))
    ensures |Full(prefix, node)| > 1 && IsBelow(prefix, node.entries.key, Full(prefix, node)[1].path)
    ensures Full(prefix, node)[1].node == node.entries.value
  {
    assert Full(path, value)[0] == Listed(path, value);
    assert IsListed(Full(path, value), Listed(path, value));
    EntryListed(prefix, node.entries, key, value, path, Listed(path, value));
    ListedInSum([Listed(prefix, node)], FullAll(prefix, node.entries), Listed(path, value));
    assert Full(prefix, node)[1] == Full(Extend(prefix, node.entries.key), node.entries.value)[0];
  }

  /** The nodes that the keys lead to, with their paths. */
  ghost predicate LeadsTo(a: Listed, keys: seq<string>, b: Listed)
    decreases |keys|
  {
    if keys == [] then a == b
    else
      a.node.Map? && exists path, value :: (
        && HasEntry(a.node.entries, keys[0], value) && IsBelow(a.path, keys[0], path)
        && LeadsTo(Listed(path, value), keys[1..], b))
  }

  /** Whatever keys lead to is listed. */
  lemma {:induction false} ReachedIsListed(a: Listed, keys: seq<string>, b: Listed)
    requires LeadsTo(a, keys, b)
    ensures IsListed(Full(a.path, a.node), b)
    decreases |keys|
  {
    if keys == [] {
      assert Full(a.path, a.node)[0] == a;
    } else {
      var path, value :| HasEntry(a.node.entries, keys[0], value) && IsBelow(a.path, keys[0], path)
        && LeadsTo(Listed(path, value), keys[1..], b);
      ReachedIsListed(Listed(path, value), keys[1..], b);
      EntryListed(a.path, a.node.entries, keys[0], value, path, b);
      ListedInSum([a], FullAll(a.path, a.node.entries), b);
    }
  }

  /** Whatever is listed, some keys lead to. */
  lemma {:induction false} ListedIsReached(prefix: string, node: Node, b: Listed) returns (keys: seq<string>)
    requires IsListed(Full(prefix, node), b)
    ensures LeadsTo(Listed(prefix, node), keys, b)
    decreases node
  {
    if b == Listed(prefix, node) {
      keys := [];
    } else {
      ListedInSum([Listed(prefix, node)], if node.Map? then FullAll(prefix, node.entries) else [], b);
      var key, path, value, rest := EntryReached(prefix, node.entries, b);
      keys := [key] + rest;
      assert keys[0] == key && keys[1..] == rest;
    }
  }

  lemma {:induction false} EntryReached(prefix: string, es: Entries, b: Listed)
    returns (key: string, path: string, value: Node, keys: seq<string>)
    requires IsListed(FullAll(prefix, es), b)
    ensures HasEntry(es, key, value) && IsBelow(prefix, key, path) && LeadsTo(Listed(path, value), keys, b)
    decreases es
  {
    var here := Extend(prefix, es.key);
    ListedInSum(Full(here, es.value), FullAll(prefix, es.rest), b);
    if IsListed(Full(here, es.value), b) {
      key, path, value := es.key, here, es.value;
      keys := ListedIsReached(here, es.value, b);
    } else {
      key, path, value, keys := EntryReached(prefix, es.rest, b);
    }
  }

  /** A node is listed under a path exactly if some keys lead from the root to it along that path. */
  lemma {:induction false} ListedIffReached(root: Node, b: Listed)
    ensures IsListed(Full("", root), b) <==> exists keys :: LeadsTo(Listed("", root), keys, b)
  {
    if IsListed(Full("", root), b) {
      var keys := ListedIsReached("", root, b);
      assert LeadsTo(Listed("", root), keys, b);
    }
    forall keys | LeadsTo(Listed("", root), keys, b) ensures IsListed(Full("", root), b) {
      ReachedIsListed(Listed("", root), keys, b);
    }
  }
}
