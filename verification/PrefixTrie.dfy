// tools/socgen/emit/databus.go: the mutable trie nodes, and the methods that build prefixes and the function body.

module PrefixTries {
  import opened Common
  import opened BitStrings
  import opened Decoder

  class TrieNode {
    var kids: map<char, TrieNode>
    var leaf: Option<BusDevice>
    ghost const path: string      // the keys from the root down to this node

    constructor (ghost path: string)
      ensures kids == map[] && leaf == None && this.path == path
    {
      kids, leaf := map[], None;
      this.path := path;
    }
  }

  const DEPTH: nat := 32    // prefixes are cut from 32-bit addresses

  /** A snapshot of the nodes, on which the proofs compare two states. */
  datatype NodeData = NodeData(kids: map<char, TrieNode>, leaf: Option<BusDevice>)
  type Snapshot = map<TrieNode, NodeData>

  ghost predicate Closed(h: Snapshot) {
    && (forall n :: n in h ==> |n.path| <= DEPTH)
    && (forall n, k :: n in h && k in h[n].kids ==> (k == '0' || k == '1') && h[n].kids[k] in h && h[n].kids[k].path == n.path + [k])
  }

  ghost function ValueIn(h: Snapshot, n: TrieNode): Trie
    requires Closed(h) && n in h
    decreases DEPTH - |n.path|, 1
  {
    Node(h[n].leaf, ChildIn(h, n, '0'), ChildIn(h, n, '1'))
  }

  ghost function ChildIn(h: Snapshot, n: TrieNode, k: char): Trie
    requires Closed(h) && n in h
    decreases DEPTH - |n.path|, 0
  {
    if k in h[n].kids then
      assert h[n].kids[k].path == n.path + [k];
      ValueIn(h, h[n].kids[k])
    else Absent
  }

  /** Following the keys of s from n leads to x. */
  ghost predicate Along(h: Snapshot, n: TrieNode, s: string, x: TrieNode)
    requires Closed(h) && n in h
    decreases s
  {
    if s == "" then n == x else s[0] in h[n].kids && Along(h, h[n].kids[s[0]], s[1..], x)
  }

  lemma {:induction false} AlongSub(h: Snapshot, n: TrieNode, s: string, x: TrieNode)
    requires Closed(h) && n in h && Along(h, n, s, x)
    ensures x in h && x.path == n.path + s && Sub(ValueIn(h, n), s) == ValueIn(h, x)
    decreases s
  {
    if s != "" {
      AlongSub(h, h[n].kids[s[0]], s[1..], x);
      assert n.path + [s[0]] + s[1..] == n.path + s;
    }
  }

  lemma {:induction false} AlongExtend(h: Snapshot, n: TrieNode, s: string, x: TrieNode, k: char)
    requires Closed(h) && n in h && Along(h, n, s, x) && x in h && k in h[x].kids
    ensures Along(h, n, s + [k], h[x].kids[k])
    decreases s
  {
    if s == "" {
      assert s + [k] == [k] && [k][1..] == "";
    } else {
      assert (s + [k])[1..] == s[1..] + [k];
      AlongExtend(h, h[n].kids[s[0]], s[1..], x, k);
    }
  }

  /** From h to h' only x changed, and nodes were added. */
  ghost predicate OnlyChanged(h: Snapshot, h': Snapshot, x: TrieNode) {
    forall n :: n in h ==> n in h' && (n != x ==> h[n] == h'[n])
  }

  /** Subtries away from the path of x keep their value. */
  lemma {:induction false} Unchanged(h: Snapshot, h': Snapshot, m: TrieNode, x: TrieNode)
    requires Closed(h) && Closed(h') && OnlyChanged(h, h', x) && m in h && !(m.path <= x.path)
    ensures ValueIn(h', m) == ValueIn(h, m)
    decreases DEPTH - |m.path|
  {
    forall k | k in h[m].kids ensures ValueIn(h', h[m].kids[k]) == ValueIn(h, h[m].kids[k]) {
      assert h[m].kids[k].path == m.path + [k];
      Unchanged(h, h', h[m].kids[k], x);
    }
  }

  /** Above x the value changes only by the new subtrie at x. */
  lemma {:induction false} Changed(h: Snapshot, h': Snapshot, n: TrieNode, s: string, x: TrieNode)
    requires Closed(h) && Closed(h') && OnlyChanged(h, h', x) && n in h && Along(h, n, s, x) && x.path == n.path + s
    ensures x in h' && Along(h', n, s, x) && ValueIn(h', n) == Graft(ValueIn(h, n), s, ValueIn(h', x))
    decreases s
  {
    if s != "" {
      assert n.path + s == (n.path + [s[0]]) + s[1..];
      Changed(h, h', h[n].kids[s[0]], s[1..], x);
      var o := if s[0] == '0' then '1' else '0';
      if o in h[n].kids {
        assert h[n].kids[o].path == n.path + [o];
        assert x.path[|n.path|] == s[0] && h[n].kids[o].path[|n.path|] == o;
        Unchanged(h, h', h[n].kids[o], x);
      }
    }
  }

  ghost function AddChild(h: Snapshot, x: TrieNode, k: char, c: TrieNode): Snapshot
    requires x in h
  {
    h[x := NodeData(h[x].kids[k := c], h[x].leaf)][c := NodeData(map[], None)]
  }

  lemma {:induction false} AddChildClosed(h: Snapshot, x: TrieNode, k: char, c: TrieNode)
    requires Closed(h) && x in h && (k == '0' || k == '1') && c !in h && c.path == x.path + [k] && |c.path| <= DEPTH
    ensures Closed(AddChild(h, x, k, c)) && OnlyChanged(h, AddChild(h, x, k, c), x)
  {
    var h' := AddChild(h, x, k, c);
    forall n, j | n in h' && j in h'[n].kids
      ensures (j == '0' || j == '1') && h'[n].kids[j] in h' && h'[n].kids[j].path == n.path + [j]
    {
      if n != x || j != k { assert n in h && j in h[n].kids && h'[n].kids[j] == h[n].kids[j]; }
    }
  }

  /** A new empty child under x. */
  lemma {:induction false} ChildAdded(h: Snapshot, x: TrieNode, k: char, c: TrieNode)
    requires Closed(h) && x in h && (k == '0' || k == '1') && k !in h[x].kids && c !in h && c.path == x.path + [k] && |c.path| <= DEPTH
    ensures Closed(AddChild(h, x, k, c)) && ValueIn(AddChild(h, x, k, c), x) == WithEmpty(ValueIn(h, x), k)
  {
    AddChildClosed(h, x, k, c);
    var h' := AddChild(h, x, k, c);
    var o := if k == '0' then '1' else '0';
    if o in h[x].kids {
      assert h[x].kids[o].path == x.path + [o];
      Unchanged(h, h', h[x].kids[o], x);
    }
    assert ChildIn(h', x, o) == ChildIn(h, x, o);
    assert ValueIn(h', c) == EMPTY;
  }

  /** The walk of an insertion has come to node after i keys, and inserting still gives what it gave for t. */
  ghost predicate Reached(h: Snapshot, root: TrieNode, prefix: string, i: nat, d: BusDevice, node: TrieNode, t: Trie)
    requires Closed(h) && root in h && i <= |prefix|
  {
    Along(h, root, prefix[..i], node) && Decoder.Insert(ValueIn(h, root), prefix, d) == Decoder.Insert(t, prefix, d)
  }

  lemma {:induction false} ReachedStart(h: Snapshot, root: TrieNode, prefix: string, d: BusDevice)
    requires Closed(h) && root in h
    ensures Reached(h, root, prefix, 0, d, root, ValueIn(h, root))
  {
    hide ValueIn;
    assert prefix[..0] == "";
  }

  lemma {:induction false} ReachedAll(h: Snapshot, root: TrieNode, prefix: string, d: BusDevice, x: TrieNode, t: Trie)
    requires Closed(h) && root in h && Reached(h, root, prefix, |prefix|, d, x, t)
    ensures Along(h, root, prefix[..|prefix|], x) && Decoder.Insert(ValueIn(h, root), prefix, d) == Decoder.Insert(t, prefix, d)
  {
    hide ValueIn;
  }

  lemma {:induction false} ReachedAdding(h: Snapshot, root: TrieNode, prefix: string, i: nat, d: BusDevice, x: TrieNode, t: Trie, c: TrieNode)
    requires Closed(h) && root in h && root.path == "" && Binary(prefix) && i < |prefix| <= DEPTH && Reached(h, root, prefix, i, d, x, t)
    requires x in h && prefix[i] !in h[x].kids && c !in h && c.path == x.path + [prefix[i]]
    ensures var h' := AddChild(h, x, prefix[i], c); Closed(h') && Reached(h', root, prefix, i, d, x, t)
  {
    AlongSub(h, root, prefix[..i], x);
    AddChildClosed(h, x, prefix[i], c);
    ChildAdded(h, x, prefix[i], c);
    Changed(h, AddChild(h, x, prefix[i], c), root, prefix[..i], x);
    InsertIgnoresEmpty(ValueIn(h, root), prefix, i, d);
  }

  lemma {:induction false} ReachedPath(h: Snapshot, root: TrieNode, prefix: string, i: nat, d: BusDevice, x: TrieNode, t: Trie)
    requires Closed(h) && root in h && root.path == "" && i <= |prefix| && Reached(h, root, prefix, i, d, x, t)
    ensures x.path == prefix[..i]
  {
    hide ValueIn;
    AlongPath(h, root, prefix, i, x);
  }

  lemma {:induction false} ReachedNext(h: Snapshot, root: TrieNode, prefix: string, i: nat, d: BusDevice, x: TrieNode, t: Trie)
    requires Closed(h) && root in h && i < |prefix| && Reached(h, root, prefix, i, d, x, t) && x in h && prefix[i] in h[x].kids
    ensures Reached(h, root, prefix, i + 1, d, h[x].kids[prefix[i]], t)
  {
    assert prefix[..i + 1] == prefix[..i] + [prefix[i]];
    AlongExtend(h, root, prefix[..i], x, prefix[i]);
  }

  /** A root together with the nodes made for it. */
  class PrefixTrie {
    const root: TrieNode
    ghost var nodes: set<TrieNode>

    ghost function Nodes(): Snapshot
      reads this, nodes
    {
      map n | n in nodes :: NodeData(n.kids, n.leaf)
    }

    ghost predicate Valid()
      reads this, nodes
    {
      root in nodes && root.path == "" && Closed(Nodes())
    }

    /** The trie below a node as a value. */
    function Value(n: TrieNode): (t: Trie)
      requires Valid() && n in nodes
      reads this, nodes
      ensures t == ValueIn(Nodes(), n)
      decreases DEPTH - |n.path|
    {
      assert forall k :: k in n.kids ==> Nodes()[n].kids[k].path == n.path + [k];
      Node(n.leaf, if '0' in n.kids then Value(n.kids['0']) else Absent, if '1' in n.kids then Value(n.kids['1']) else Absent)
    }

    constructor ()
      ensures Valid() && fresh(root) && fresh(nodes)
      ensures Value(root) == EMPTY
    {
      var r := new TrieNode("");
      root := r;
      nodes := {r};
    }

    method MakeChild(node: TrieNode, k: char) returns (child: TrieNode)
      requires node in nodes && k !in node.kids
      modifies node`kids, this`nodes
      ensures fresh(child) && child.path == node.path + [k]
      ensures nodes == old(nodes) + {child} && Nodes() == AddChild(old(Nodes()), node, k, child)
      ensures node.kids == old(node.kids)[k := child]
    {
      child := new TrieNode(node.path + [k]);
      node.kids := node.kids[k := child];
      nodes := nodes + {child};
    }

    /** insert: walks down from the root, making the nodes that are missing, and puts the device on the last one. */
    method Insert(prefix: string, d: BusDevice)
      requires Valid() && Binary(prefix) && |prefix| <= DEPTH
      modifies nodes, this`nodes
      ensures Valid() && fresh(nodes - old(nodes))
      ensures Value(root) == Decoder.Insert(old(Value(root)), prefix, d)
    {
      hide Reached, AddChild, ValueIn;
      ghost var t := Value(root);
      var node := root;
      ReachedStart(Nodes(), root, prefix, d);
      for i := 0 to |prefix|
        invariant node in nodes && root in nodes && Closed(Nodes()) && fresh(nodes - old(nodes))
        invariant Reached(Nodes(), root, prefix, i, d, node, t)
      {
        ghost var h := Nodes();
        ReachedPath(h, root, prefix, i, d, node, t);
        if prefix[i] !in node.kids {
          var child := MakeChild(node, prefix[i]);
          ReachedAdding(h, root, prefix, i, d, node, t, child);
        }
        ReachedNext(Nodes(), root, prefix, i, d, node, t);
        assert node.kids == Nodes()[node].kids;
        node := node.kids[prefix[i]];
      }
      ReachedAll(Nodes(), root, prefix, d, node, t);
      SetLeaf(node, prefix, d);
    }

    method SetLeaf(node: TrieNode, prefix: string, d: BusDevice)
      requires Valid() && Binary(prefix) && node in nodes && Along(Nodes(), root, prefix[..|prefix|], node)
      modifies node`leaf
      ensures Valid() && Value(root) == Decoder.Insert(old(Value(root)), prefix, d)
    {
      assert prefix[..|prefix|] == prefix;
      ghost var h := Nodes();
      node.leaf := Some(d);
      assert Nodes() == h[node := NodeData(h[node].kids, Some(d))];
      LeafSet(h, Nodes(), root, prefix, node, d);
    }
  }

  lemma {:induction false} AlongPath(h: Snapshot, root: TrieNode, prefix: string, i: nat, x: TrieNode)
    requires Closed(h) && root in h && root.path == "" && i <= |prefix| && Along(h, root, prefix[..i], x)
    ensures x.path == prefix[..i]
  {
    AlongSub(h, root, prefix[..i], x);
  }

  lemma {:induction false} LeafPlaced(h: Snapshot, h': Snapshot, x: TrieNode, d: BusDevice)
    requires Closed(h) && x in h && h' == h[x := NodeData(h[x].kids, Some(d))]
    ensures Closed(h') && OnlyChanged(h, h', x) && ValueIn(h, x).Node? && ValueIn(h', x) == ValueIn(h, x).(leaf := Some(d))
  {
    assert forall n :: n in h' ==> n in h && h'[n].kids == h[n].kids;
    forall k | k in h[x].kids ensures ValueIn(h', h[x].kids[k]) == ValueIn(h, h[x].kids[k]) {
      assert h[x].kids[k].path == x.path + [k];
      Unchanged(h, h', h[x].kids[k], x);
    }
    assert ChildIn(h', x, '0') == ChildIn(h, x, '0') && ChildIn(h', x, '1') == ChildIn(h, x, '1');
  }

  /** Putting a device on the node at the end of the prefix is the insertion. */
  lemma {:induction false} LeafSet(h: Snapshot, h': Snapshot, root: TrieNode, prefix: string, x: TrieNode, d: BusDevice)
    requires Closed(h) && root in h && root.path == "" && Along(h, root, prefix, x) && x in h && Binary(prefix)
    requires h' == h[x := NodeData(h[x].kids, Some(d))]
    ensures Closed(h') && ValueIn(h', root) == Decoder.Insert(ValueIn(h, root), prefix, d)
  {
    hide Closed, ValueIn, Graft, Decoder.Insert;
    AlongSub(h, root, prefix, x);
    LeafPlaced(h, h', x, d);
    Changed(h, h', root, prefix, x);
    InsertIsGraft(ValueIn(h, root), prefix, d);
  }

  function Sub(t: Trie, s: string): Trie {
    if s == "" || t.Absent? then t else Sub(Child(t, s[0]), s[1..])
  }

  function Graft(t: Trie, s: string, u: Trie): Trie {
    if s == "" then u
    else if t.Absent? then Absent
    else if s[0] == '0' then t.(zero := Graft(t.zero, s[1..], u))
    else t.(one := Graft(t.one, s[1..], u))
  }

  function WithEmpty(t: Trie, k: char): Trie
    requires t.Node?
  {
    if k == '0' then t.(zero := EMPTY) else t.(one := EMPTY)
  }

  /** Making the next missing node on the way does not change what an insertion gives. */
  lemma {:induction false} InsertIgnoresEmpty(t: Trie, p: string, i: nat, d: BusDevice)
    requires Binary(p) && i < |p| && Sub(t, p[..i]).Node? && Child(Sub(t, p[..i]), p[i]).Absent?
    ensures Decoder.Insert(Graft(t, p[..i], WithEmpty(Sub(t, p[..i]), p[i])), p, d) == Decoder.Insert(t, p, d)
  {
    if i > 0 {
      assert p[..i][0] == p[0] && p[..i][1..] == p[1..][..i - 1];
      InsertIgnoresEmpty(Child(t, p[0]), p[1..], i - 1, d);
    }
  }

  lemma {:induction false} InsertIsGraft(t: Trie, p: string, d: BusDevice)
    requires Binary(p) && Sub(t, p).Node?
    ensures Decoder.Insert(t, p, d) == Graft(t, p, Sub(t, p).(leaf := Some(d)))
  {
    if p != "" { InsertIsGraft(Child(t, p[0]), p[1..], d); }
  }

  // ---- The prefix maps and the function body ----

  /** trimSuffix: writes the trimmed prefix of each device below t into the map. */
  method TrimSuffix(t: Trie, full: string, prefix: string, out: map<string, string>) returns (r: map<string, string>)
    ensures r == Put(out, Trims(t, full, prefix))
    decreases t
  {
    r := out;
    if t.Absent? {
    } else if t.leaf.Some? {
      r := r[t.leaf.value.name := full];
    } else if t.zero.Node? && t.one.Absent? {
      r := TrimSuffix(t.zero, full, prefix + "0", r);
    } else if t.one.Node? && t.zero.Absent? {
      r := TrimSuffix(t.one, full, prefix + "1", r);
    } else {
      PutConcat(r, Trims(t.zero, full + prefix + "0", ""), Trims(t.one, full + prefix + "1", ""));
      r := TrimSuffix(t.zero, full + prefix + "0", "", r);
      r := TrimSuffix(t.one, full + prefix + "1", "", r);
    }
  }

  /** The trie of all devices, built by inserting them one after another. */
  method BuildNodes(devs: seq<BusDevice>, prefixes: map<string, string>) returns (t: PrefixTrie)
    requires forall d :: d in devs ==> Binary(At(prefixes, d.name)) && |At(prefixes, d.name)| <= DEPTH
    ensures t.Valid() && t.Value(t.root) == BuildTrie(devs, prefixes)
  {
    t := new PrefixTrie();
    for i := 0 to |devs|
      invariant t.Valid() && fresh(t) && fresh(t.nodes) && t.Value(t.root) == BuildTrie(devs[..i], prefixes)
    {
      assert devs[..i + 1][..i] == devs[..i];
      t.Insert(At(prefixes, devs[i].name), devs[i]);
    }
    assert devs[..|devs|] == devs;
  }

  method DevicePrefixes(devs: seq<BusDevice>, simple: bool) returns (out: map<string, string>)
    requires InWidth(devs) && DistinctNames(devs)
    ensures out == if simple then SimplePrefixes(devs) else ExactPrefixes(devs)
  {
    var exact: map<string, string> := map[];
    for i := 0 to |devs|
      invariant exact == ExactPrefixes(devs[..i])
    {
      assert devs[..i + 1][..i] == devs[..i];
      var bits := Bin32(devs[i].base);
      exact := exact[devs[i].name := bits[..32 - devs[i].leftBit - 1]];
    }
    assert devs[..|devs|] == devs;
    if !simple { return exact; }
    ExactBinary(devs);
    forall d | d in devs ensures |At(exact, d.name)| <= DEPTH {
      var i :| 0 <= i < |devs| && devs[i] == d;
      ExactPrefixesAt(devs, i);
    }
    var trie := BuildNodes(devs, exact);
    out := TrimSuffix(trie.Value(trie.root), "", "", map[]);
  }

  /** The trie of the prefixes that the mode chooses. */
  method PrefixTree(devs: seq<BusDevice>, simple: bool) returns (t: Trie)
    requires InWidth(devs) && DistinctNames(devs)
    requires Family(devs, if simple then SimplePrefixes(devs) else ExactPrefixes(devs))
    ensures t == BuildTrie(devs, if simple then SimplePrefixes(devs) else ExactPrefixes(devs))
  {
    hide *;
    var prefixes := DevicePrefixes(devs, simple);
    FamilyFits(devs, prefixes);
    var trie := BuildNodes(devs, prefixes);
    t := trie.Value(trie.root);
  }

  lemma {:induction false} FamilyFits(devs: seq<BusDevice>, prefixes: map<string, string>)
    requires Family(devs, prefixes)
    ensures forall d :: d in devs ==> Binary(At(prefixes, d.name)) && |At(prefixes, d.name)| <= DEPTH
  {
  }

  /** decodeFunction: the statements of decode_address. */
  method DecodeFunction(devs: seq<BusDevice>, lits: map<string, string>, simple: bool) returns (body: seq<Stmt>)
    requires InWidth(devs) && DistinctNames(devs)
    requires Family(devs, if simple then SimplePrefixes(devs) else ExactPrefixes(devs))
    ensures body == DecodeBody(devs, if simple then SimplePrefixes(devs) else ExactPrefixes(devs), lits)
  {
    hide BuildTrie, Collapse, BuildIfs, SimplePrefixes, ExactPrefixes, Family, Alive, InWidth;
    body := [];
    if |devs| > 0 {
      var trie := PrefixTree(devs, simple);
      TreeAlive(devs, if simple then SimplePrefixes(devs) else ExactPrefixes(devs));
      var prefix, inner := ExtractPrefix(trie);
      if |prefix| <= 4 {
        body := body + BuildIfs(|prefix|, inner, lits);
      } else {
        body := body + [If(BuildCond(27, prefix[4..]), BuildIfs(|prefix|, inner, lits), [], [])];
      }
    }
    body := body + [Return(At(lits, "none"))];
  }

  lemma {:induction false} TreeAlive(devs: seq<BusDevice>, prefixes: map<string, string>)
    requires devs != []
    ensures var t := Collapse(BuildTrie(devs, prefixes)).1; Branching(t) && Alive(t)
  {
    BuildTrieAlive(devs, prefixes);
    CollapseFacts(BuildTrie(devs, prefixes));
  }
}
