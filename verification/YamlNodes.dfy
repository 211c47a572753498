// tools/socgen/design/include.go: the merge on nodes, in place.

module YamlNodes {
  import opened Common
  import opened MergeSpec

  datatype Kind = ScalarKind | ListKind | MappingKind

  function Zip(keys: seq<string>, vals: seq<Node>): (es: seq<Entry>)
    requires |keys| == |vals|
    ensures |es| == |keys| && forall i :: 0 <= i < |es| ==> es[i] == Entry(keys[i], vals[i])
  {
    if keys == [] then [] else Zip(keys[..|keys| - 1], vals[..|keys| - 1]) + [Entry(keys[|keys| - 1], vals[|keys| - 1])]
  }

  /** A mapping's keys stand beside its kids. Nodes form trees. */
  class YamlNode {
    var kind: Kind
    var tag: Tag
    var text: string
    var keys: seq<string>
    var kids: seq<YamlNode>
    ghost var repr: set<YamlNode>

    ghost predicate Valid()
      reads this, repr
      decreases repr
    {
      && this in repr
      && (kind == ScalarKind ==> kids == [])
      && (if kind == MappingKind then |keys| == |kids| else keys == [])
      && (forall i :: 0 <= i < |kids| ==> kids[i] in repr && kids[i].repr <= repr - {this} && kids[i].Valid())
      && (forall i, j :: 0 <= i < j < |kids| ==> kids[i].repr !! kids[j].repr)
    }

    ghost function Vals(n: nat): (vs: seq<Node>)
      requires Valid() && n <= |kids|
      reads this, repr
      ensures |vs| == n && forall i :: 0 <= i < n ==> vs[i] == kids[i].Value()
      decreases repr, 0, n
    {
      if n == 0 then [] else Vals(n - 1) + [kids[n - 1].Value()]
    }

    ghost function Value(): Node
      requires Valid()
      reads this, repr
      decreases repr, 1
    {
      match kind
      case ScalarKind => Scalar(tag, text)
      case ListKind => List(tag, Vals(|kids|))
      case MappingKind => Mapping(tag, Zip(keys, Vals(|kids|)))
    }

    constructor (tag: Tag)
      ensures Valid() && kind == ScalarKind && this.tag == tag && keys == [] && kids == [] && repr == {this}
    {
      kind, this.tag, text, keys, kids, repr := ScalarKind, tag, "", [], [], {this};
    }

    /** mapIndex. */
    method MapIndex(key: string) returns (i: nat)
      requires Valid() && kind == MappingKind
      ensures i == Index(Value().entries, key)
    {
      i := 0;
      ghost var es := Value().entries;
      while i < |keys| && keys[i] != key
        invariant i <= |keys| && forall j :: 0 <= j < i ==> es[j].key != key
      {
        i := i + 1;
      }
      IndexIs(es, key, i);
    }

    /** What Value is, from the values of the kids. */
    lemma {:induction false} ValueIs(vs: seq<Node>)
      requires Valid() && |vs| == |kids| && forall i :: 0 <= i < |kids| ==> kids[i].Value() == vs[i]
      ensures Value() == (match kind case ScalarKind => Scalar(tag, text) case ListKind => List(tag, vs) case MappingKind => Mapping(tag, Zip(keys, vs)))
    {
      assert Vals(|kids|) == vs;
    }

    method Append(key: string, v: YamlNode)
      requires Valid() && kind == MappingKind && v.Valid() && v.repr !! repr
      modifies this
      ensures Valid() && kind == MappingKind && tag == old(tag) && repr == old(repr) + v.repr && v.Value() == old(v.Value())
      ensures Value() == Mapping(old(tag), old(Value().entries) + [Entry(key, v.Value())])
    {
      hide Zip, YamlNode.Value;
      ghost var vs := Vals(|kids|);
      ghost var value := v.Value();
      ValueIs(vs);
      ZipAppend(keys, vs, key, value);
      keys, kids := keys + [key], kids + [v];
      repr := repr + v.repr;
      assert v.Valid() && v.Value() == value;
      assert Valid();
      ValueIs(vs + [value]);
    }

    method AppendItem(v: YamlNode)
      requires Valid() && kind == ListKind && v.Valid() && v.repr !! repr
      modifies this
      ensures Valid() && kind == ListKind && tag == old(tag) && repr == old(repr) + v.repr
      ensures Value() == List(old(tag), old(Value().items) + [v.Value()])
    {
      hide YamlNode.Value;
      ghost var vs := Vals(|kids|);
      ghost var value := v.Value();
      ValueIs(vs);
      kids := kids + [v];
      repr := repr + v.repr;
      assert v.Valid() && v.Value() == value;
      assert Valid();
      ValueIs(vs + [value]);
    }

    method RemoveAt(i: nat)
      requires Valid() && kind == MappingKind && i < |kids|
      modifies this
      ensures Valid() && kind == MappingKind && tag == old(tag) && repr == old(repr)
      ensures Value() == Mapping(old(tag), old(Value().entries)[..i] + old(Value().entries)[i + 1..])
    {
      hide Zip, YamlNode.Value;
      ghost var vs := Vals(|kids|);
      ValueIs(vs);
      ZipRemove(keys, vs, i);
      keys, kids := keys[..i] + keys[i + 1..], kids[..i] + kids[i + 1..];
      assert Valid();
      ValueIs(vs[..i] + vs[i + 1..]);
    }

    /** Joins the items of another list. */
    method AppendAll(b: YamlNode)
      requires Valid() && b.Valid() && kind == ListKind && b.kind == ListKind && repr !! b.repr
      modifies this
      ensures Valid() && repr == old(repr) + b.repr
      ensures Value() == List(old(tag), old(Value().items) + old(b.Value().items))
    {
      hide YamlNode.Value;
      ghost var vs, ws := Vals(|kids|), b.Vals(|b.kids|);
      ValueIs(vs);
      b.ValueIs(ws);
      kids := kids + b.kids;
      repr := repr + b.repr;
      assert Valid();
      ValueIs(vs + ws);
    }
  }

  lemma {:induction false} EntryAt(n: YamlNode)
    requires n.Valid() && n.kind == MappingKind
    ensures var es := n.Value().entries; n.Value() == Mapping(n.tag, es) && |es| == |n.kids| && forall i :: 0 <= i < |es| ==> es[i] == Entry(n.keys[i], n.kids[i].Value())
  {
  }

  lemma {:induction false} Tombstone(n: YamlNode)
    requires n.Valid()
    ensures IsTombstone(n.Value()) <==> n.kind == ScalarKind && n.tag == RemoveTag
  {
  }

  /** One entry of the base. */
  method MergeEntry(dst: YamlNode, key: string, bv: YamlNode)
    requires dst.Valid() && dst.kind == MappingKind && bv.Valid() && dst.repr !! bv.repr
    modifies dst.repr, bv.repr
    ensures dst.Valid() && dst.kind == MappingKind && dst.tag == old(dst.tag) && dst.repr <= old(dst.repr) + old(bv.repr)
    ensures dst.Value() == Mapping(old(dst.tag), PutEntry(old(dst.Value().entries), Entry(key, old(bv.Value()))))
    decreases bv.repr, 3
  {
    hide MergeNode, Index, YamlNode.Value;
    EntryAt(dst);
    ghost var es := dst.Value().entries;
    var i := dst.MapIndex(key);
    if i == |dst.kids| {
      dst.Append(key, bv);
      return;
    }
    var dv := dst.kids[i];
    Tombstone(dv);
    if dv.kind == ScalarKind && dv.tag == RemoveTag {
      dst.RemoveAt(i);
      return;
    }
    MergeKid(dst, i, bv);
  }

  /** The kid at i, merged with the value of the base. */
  method MergeKid(dst: YamlNode, i: nat, bv: YamlNode)
    requires dst.Valid() && dst.kind == MappingKind && bv.Valid() && dst.repr !! bv.repr && i < |dst.kids|
    modifies dst.repr, bv.repr
    ensures dst.Valid() && dst.kind == MappingKind && dst.tag == old(dst.tag) && dst.repr <= old(dst.repr) + old(bv.repr)
    ensures var es := old(dst.Value().entries);
            dst.Value() == Mapping(old(dst.tag), es[i := Entry(es[i].key, MergeNode(es[i].val, old(bv.Value())))])
    decreases bv.repr, 2
  {
    hide Zip, MergeNode, YamlNode.Value;
    EntryAt(dst);
    var dv := dst.kids[i];
    ghost var vs, value := dst.Vals(|dst.kids|), MergeNode(dv.Value(), bv.Value());
    ZipUpdate(dst.keys, vs, i, value);
    MergeInto(dv, bv);
    dst.repr := dst.repr + dv.repr;
    assert dst.Valid();
    dst.ValueIs(vs[i := value]);
  }

  method MergeInto(dv: YamlNode, bv: YamlNode)
    requires dv.Valid() && bv.Valid() && dv.repr !! bv.repr
    modifies dv.repr, bv.repr
    ensures dv.Valid() && dv.repr <= old(dv.repr) + old(bv.repr)
    ensures dv.Value() == MergeNode(old(dv.Value()), old(bv.Value()))
    decreases bv.repr, 1
  {
    if dv.kind == MappingKind && bv.kind == MappingKind {
      DeepMergeInto(dv, bv);
    } else if dv.kind == ListKind && bv.kind == ListKind {
      dv.AppendAll(bv);
    }
  }

  /** deepMergeInto. */
  method DeepMergeInto(dst: YamlNode, base: YamlNode)
    requires dst.Valid() && base.Valid() && dst.kind == MappingKind && base.kind == MappingKind && dst.repr !! base.repr
    modifies dst.repr, base.repr
    ensures dst.Valid() && dst.kind == MappingKind && dst.tag == old(dst.tag) && dst.repr <= old(dst.repr) + old(base.repr)
    ensures dst.Value() == Mapping(old(dst.tag), MergeEntries(old(dst.Value().entries), old(base.Value().entries)))
    decreases base.repr, 0
  {
    hide PutEntry, MergeEntries, YamlNode.Value;
    EntryAt(dst);
    EntryAt(base);
    ghost var ds, bs := dst.Value().entries, base.Value().entries;
    ghost var t, room := dst.tag, dst.repr + base.repr;
    var kids, keys := base.kids, base.keys;
    NoneMerged(ds, bs);
    for i := 0 to |kids|
      invariant dst.Valid() && dst.kind == MappingKind && dst.tag == t && dst.repr <= room
      invariant dst.Value() == Mapping(t, MergeEntries(ds, bs[..i]))
      invariant forall j :: i <= j < |kids| ==> kids[j].Valid() && kids[j].repr == old(kids[j].repr) && kids[j].repr !! dst.repr && kids[j].Value() == bs[j].val
    {
      MergedNext(ds, bs, i);
      MergeEntry(dst, keys[i], kids[i]);
    }
    assert bs[..|kids|] == bs;
  }

  lemma {:induction false} NoneMerged(ds: seq<Entry>, bs: seq<Entry>)
    ensures MergeEntries(ds, bs[..0]) == ds
  {
  }

  lemma {:induction false} MergedNext(ds: seq<Entry>, bs: seq<Entry>, i: nat)
    requires i < |bs|
    ensures MergeEntries(ds, bs[..i + 1]) == PutEntry(MergeEntries(ds, bs[..i]), bs[i])
  {
    assert bs[..i + 1][..i] == bs[..i];
  }

  lemma {:induction false} ZipRemove(keys: seq<string>, vals: seq<Node>, i: nat)
    requires |keys| == |vals| && i < |keys|
    ensures Zip(keys[..i] + keys[i + 1..], vals[..i] + vals[i + 1..]) == Zip(keys, vals)[..i] + Zip(keys, vals)[i + 1..]
  {
  }

  lemma {:induction false} ZipUpdate(keys: seq<string>, vals: seq<Node>, i: nat, v: Node)
    requires |keys| == |vals| && i < |keys|
    ensures Zip(keys, vals[i := v]) == Zip(keys, vals)[i := Entry(keys[i], v)]
  {
  }

  lemma {:induction false} ZipAppend(keys: seq<string>, vals: seq<Node>, k: string, v: Node)
    requires |keys| == |vals|
    ensures Zip(keys + [k], vals + [v]) == Zip(keys, vals) + [Entry(k, v)]
  {
  }

  lemma {:induction false} IndexIs(es: seq<Entry>, k: string, i: nat)
    requires i <= |es| && (forall j :: 0 <= j < i ==> es[j].key != k) && (i < |es| ==> es[i].key == k)
    ensures Index(es, k) == i
  {
  }

  // ---- stripRemove ----

  function Untombed(es: seq<Entry>): seq<Entry> {
    if es == [] then [] else Untombed(es[..|es| - 1]) + if IsTombstone(es[|es| - 1].val) then [] else [es[|es| - 1]]
  }

  lemma {:induction false} UntombedCons(e: Entry, es: seq<Entry>)
    ensures Untombed([e] + es) == (if IsTombstone(e.val) then [] else [e]) + Untombed(es)
    decreases |es|
  {
    if es == [] {
      assert [e] + es == [e] && [e][..0] == [];
    } else {
      assert ([e] + es)[..|es|] == [e] + es[..|es| - 1];
      UntombedCons(e, es[..|es| - 1]);
    }
  }

  lemma {:induction false} StripAllLen(vals: seq<Node>)
    ensures |StripAll(vals)| == |vals| && forall i :: 0 <= i < |vals| ==> StripAll(vals)[i] == Strip(vals[i])
  {
    hide Strip;
    if vals != [] { StripAllLen(vals[1..]); }
  }

  /** A choice of n's kids before i, with their keys and values; from gives their places. */
  ghost predicate Chosen(n: YamlNode, i: nat, keys: seq<string>, kids: seq<YamlNode>, from: seq<nat>, vs: seq<Node>)
    requires n.Valid() && n.kind == MappingKind && i <= |n.kids|
    reads n, n.repr
  {
    && |keys| == |kids| == |from| == |vs|
    && (forall j, l :: 0 <= j < l < |from| ==> from[j] < from[l])
    && (forall j :: 0 <= j < |kids| ==> from[j] < i && kids[j] == n.kids[from[j]] && n.kids[from[j]].Value() == vs[j])
  }

  lemma {:induction false} ChooseNext(n: YamlNode, i: nat, keys: seq<string>, kids: seq<YamlNode>, from: seq<nat>, vs: seq<Node>)
    requires n.Valid() && n.kind == MappingKind && i < |n.kids| && Chosen(n, i, keys, kids, from, vs)
    ensures Chosen(n, i + 1, keys, kids, from, vs)
    ensures Chosen(n, i + 1, keys + [n.keys[i]], kids + [n.kids[i]], from + [i], vs + [n.kids[i].Value()])
    ensures Zip(keys + [n.keys[i]], vs + [n.kids[i].Value()]) == Zip(keys, vs) + [Entry(n.keys[i], n.kids[i].Value())]
  {
    hide YamlNode.Value;
    ZipAppend(keys, vs, n.keys[i], n.kids[i].Value());
  }

  /** The chosen kids become the only ones; those in gone are given up. */
  method Keep(n: YamlNode, keys: seq<string>, kids: seq<YamlNode>, ghost from: seq<nat>, ghost vs: seq<Node>, ghost gone: set<YamlNode>)
    requires n.Valid() && n.kind == MappingKind && Chosen(n, |n.kids|, keys, kids, from, vs)
    requires n !in gone && forall j :: 0 <= j < |kids| ==> kids[j].repr !! gone
    modifies n
    ensures n.Valid() && n.kind == MappingKind && n.tag == old(n.tag) && n.repr == old(n.repr) - gone
    ensures n.Value() == Mapping(n.tag, Zip(keys, vs))
  {
    hide Zip, YamlNode.Value;
    n.keys, n.kids := keys, kids;
    n.repr := n.repr - gone;
    assert n.Valid();
    n.ValueIs(vs);
  }

  method DropTombstones(n: YamlNode)
    requires n.Valid() && n.kind == MappingKind
    modifies n
    ensures n.Valid() && n.kind == MappingKind && n.tag == old(n.tag) && n.repr == old(n.repr)
    ensures n.Value() == Mapping(old(n.tag), Untombed(old(n.Value().entries)))
  {
    hide Zip, YamlNode.Value, Chosen;
    EntryAt(n);
    ghost var es := n.Value().entries;
    var keys: seq<string>, kids: seq<YamlNode> := [], [];
    ghost var from: seq<nat>, vs: seq<Node> := [], [];
    NoneChosen(n);
    assert es[..0] == [];
    for i := 0 to |n.kids|
      modifies {}
      invariant Chosen(n, i, keys, kids, from, vs) && |keys| == |vs| && Zip(keys, vs) == Untombed(es[..i])
    {
      assert es[..i + 1][..i] == es[..i];
      Tombstone(n.kids[i]);
      ChooseNext(n, i, keys, kids, from, vs);
      if !(n.kids[i].kind == ScalarKind && n.kids[i].tag == RemoveTag) {
        from, vs := from + [i], vs + [n.kids[i].Value()];
        keys, kids := keys + [n.keys[i]], kids + [n.kids[i]];
      }
    }
    assert es[..|n.kids|] == es;
    Keep(n, keys, kids, from, vs, {});
    assert n.repr == old(n.repr);
  }

  lemma {:induction false} NoneChosen(n: YamlNode)
    requires n.Valid() && n.kind == MappingKind
    ensures Chosen(n, 0, [], [], [], []) && Zip([], []) == [] && Untombed([]) == []
  {
  }

  /** stripRemove. */
  method StripRemove(n: YamlNode)
    requires n.Valid()
    modifies n.repr
    ensures n.Valid() && n.kind == old(n.kind) && n.tag == old(n.tag) && n.repr == old(n.repr)
    ensures n.Value() == Strip(old(n.Value()))
    decreases n.repr, 1
  {
    hide YamlNode.Value, Strip, Untombed;
    ghost var was := n.Value();
    KindOf(n);
    if n.kind == MappingKind { DropTombstones(n); }
    StripKids(n);
    StripIs(was);
  }

  lemma {:induction false} KindOf(n: YamlNode)
    requires n.Valid()
    ensures var v := n.Value(); v.tag == n.tag && (v.Mapping? <==> n.kind == MappingKind) && (v.List? <==> n.kind == ListKind)
  {
  }

  /** Strip goes into what is left after the tombstones are dropped. */
  function StripInside(v: Node): Node {
    match v
    case Scalar(_, _) => v
    case List(t, items) => List(t, StripAll(items))
    case Mapping(t, es) => Mapping(t, StripEach(es))
  }

  function StripEach(es: seq<Entry>): (r: seq<Entry>)
    ensures |r| == |es| && forall i :: 0 <= i < |es| ==> r[i] == StripEntry(es[i])
  {
    if es == [] then [] else [StripEntry(es[0])] + StripEach(es[1..])
  }

  lemma {:induction false} StripIs(v: Node)
    ensures Strip(v) == StripInside(if v.Mapping? then Mapping(v.tag, Untombed(v.entries)) else v)
  {
    if v.Mapping? { StripTwoPasses(v.entries); }
  }

  /** stripRemove works in two passes: it drops the tombstones, then it goes into the values that stay. */
  lemma {:induction false} StripTwoPasses(es: seq<Entry>)
    ensures StripEntries(es) == StripEach(Untombed(es))
    decreases es
  {
    hide StripEntry;
    if es != [] {
      assert es == [es[0]] + es[1..];
      UntombedCons(es[0], es[1..]);
      StripTwoPasses(es[1..]);
      if !IsTombstone(es[0].val) { assert ([es[0]] + Untombed(es[1..]))[1..] == Untombed(es[1..]); }
    }
  }

  method StripKids(n: YamlNode)
    requires n.Valid()
    modifies n.repr
    ensures n.Valid() && n.kind == old(n.kind) && n.tag == old(n.tag) && n.repr == old(n.repr)
    ensures n.Value() == StripInside(old(n.Value()))
    decreases n.repr, 0
  {
    hide Zip, YamlNode.Value, YamlNode.Vals, Strip, StripAll, StripInside;
    ghost var was, vs := n.Value(), n.Vals(|n.kids|);
    n.ValueIs(vs);
    StripAllLen(vs);
    StripInsideIs(was, n.keys, vs);
    var kids := n.kids;
    for i := 0 to |kids|
      invariant n.Valid() && n.kids == kids && n.keys == old(n.keys) && n.kind == old(n.kind) && n.tag == old(n.tag) && n.text == old(n.text) && n.repr == old(n.repr)
      invariant forall j :: 0 <= j < i ==> kids[j].Value() == StripAll(vs)[j]
      invariant forall j :: i <= j < |kids| ==> kids[j].Value() == vs[j]
    {
      StripRemove(kids[i]);
    }
    n.ValueIs(StripAll(vs));
  }

  lemma {:induction false} StripInsideIs(v: Node, keys: seq<string>, vs: seq<Node>)
    requires v.Mapping? ==> |keys| == |vs| && v.entries == Zip(keys, vs)
    requires v.List? ==> v.items == vs
    ensures |StripAll(vs)| == |vs|
    ensures StripInside(v) == if v.Mapping? then Mapping(v.tag, Zip(keys, StripAll(vs))) else if v.List? then List(v.tag, StripAll(vs)) else v
  {
    hide Strip;
    StripAllLen(vs);
  }

  // ---- mergeMapping ----

  /** mergeMapping: takes the << entry out and merges its value under the others. On an error the node is not used again. */
  method MergeMappingNode(n: YamlNode) returns (err: Option<IncludeError>)
    requires n.Valid() && n.kind == MappingKind
    modifies n.repr
    ensures var r := MergeMapping(old(n.tag), old(n.Value().entries));
            if err.Some? then r == Err(err.value) else n.Valid() && n.repr <= old(n.repr) && r == Ok(n.Value())
  {
    hide Zip, YamlNode.Value, MergeEntries, Chosen, Siblings, MergeValues;
    EntryAt(n);
    ghost var es := n.Value().entries;
    var merge: Option<YamlNode> := None;
    var keys: seq<string>, kids: seq<YamlNode> := [], [];
    ghost var from: seq<nat>, vs: seq<Node>, at: nat := [], [], 0;
    NoneChosen(n);
    EmptySplit();
    assert es[..0] == [];
    for i := 0 to |n.kids|
      modifies {}
      invariant Chosen(n, i, keys, kids, from, vs) && |keys| == |vs| && Zip(keys, vs) == Siblings(es[..i])
      invariant merge.Some? ==> at < i && merge.value == n.kids[at] && at !in from
      invariant forall j :: 0 <= j < |from| ==> from[j] < i
      invariant MergeValues(es[..i]) == if merge.None? then [] else [n.kids[at].Value()]
    {
      assert es[..i + 1] == es[..i] + [es[i]];
      SplitNext(es[..i], es[i]);
      ChooseNext(n, i, keys, kids, from, vs);
      if n.keys[i] == MERGE_KEY {
        if merge.Some? {
          assert es == es[..i + 1] + es[i + 1..];
          MergeValuesOf(es[..i + 1], es[i + 1..]);
          return Some(ManyMerges);
        }
        merge, at := Some(n.kids[i]), i;
      } else {
        from, vs := from + [i], vs + [n.kids[i].Value()];
        keys, kids := keys + [n.keys[i]], kids + [n.kids[i]];
      }
    }
    assert es[..|n.kids|] == es;
    if merge.None? {
      Keep(n, keys, kids, from, vs, {});
      return None;
    }
    KindOf(merge.value);
    if merge.value.kind != MappingKind { return Some(NotAMapping); }
    MergeUnder(n, keys, kids, merge.value, from, vs, at);
    err := None;
  }

  lemma {:induction false} EmptySplit()
    ensures Siblings([]) == [] && MergeValues([]) == [] && Zip([], []) == []
  {
  }

  lemma {:induction false} SplitNext(es: seq<Entry>, e: Entry)
    ensures Siblings(es + [e]) == Siblings(es) + if e.key == MERGE_KEY then [] else [e]
    ensures MergeValues(es + [e]) == MergeValues(es) + if e.key == MERGE_KEY then [e.val] else []
    decreases es
  {
    if es == [] {
      assert es + [e] == [e] && [e][1..] == [];
    } else {
      assert (es + [e])[1..] == es[1..] + [e];
      SplitNext(es[1..], e);
    }
  }

  lemma {:induction false} MergeValuesOf(a: seq<Entry>, b: seq<Entry>)
    ensures MergeValues(a + b) == MergeValues(a) + MergeValues(b)
    decreases a
  {
    if a == [] {
      assert a + b == b;
    } else {
      assert (a + b)[0] == a[0] && (a + b)[1..] == a[1..] + b;
      MergeValuesOf(a[1..], b);
      assert MergeValues(a + b) == (if a[0].key == MERGE_KEY then [a[0].val] else []) + (MergeValues(a[1..]) + MergeValues(b));
    }
  }

  /** Keeps the chosen kids, and merges the value of << under them. */
  method MergeUnder(n: YamlNode, keys: seq<string>, kids: seq<YamlNode>, merge: YamlNode, ghost from: seq<nat>, ghost vs: seq<Node>, ghost at: nat)
    requires n.Valid() && n.kind == MappingKind && Chosen(n, |n.kids|, keys, kids, from, vs)
    requires at < |n.kids| && merge == n.kids[at] && at !in from && merge.kind == MappingKind
    modifies n.repr
    ensures n.Valid() && n.repr <= old(n.repr)
    ensures |keys| == |vs| && n.Value() == Mapping(old(n.tag), MergeEntries(Zip(keys, vs), old(merge.Value().entries)))
  {
    hide Zip, YamlNode.Value, MergeEntries;
    EntryAt(merge);
    Keep(n, keys, kids, from, vs, merge.repr);
    DeepMergeInto(n, merge);
  }

  // ---- resolveIncludes ----

  /** The nodes of a freshly read file. */
  method Build(v: Node) returns (n: YamlNode)
    ensures n.Valid() && fresh(n.repr) && n.Value() == v
    decreases v, 1
  {
    hide Zip, YamlNode.Value;
    n := new YamlNode(v.tag);
    match v
    case Scalar(_, text) =>
      n.text := text;
      n.ValueIs([]);
    case List(_, items) =>
      n.kind := ListKind;
      AddItems(n, items);
    case Mapping(_, es) =>
      n.kind := MappingKind;
      AddEntries(n, es);
  }

  method AddItems(n: YamlNode, items: seq<Node>)
    requires n.Valid() && n.kind == ListKind && n.kids == [] && n.repr == {n}
    modifies n
    ensures n.Valid() && fresh(n.repr - {n}) && n.Value() == List(old(n.tag), items)
    decreases items, 0
  {
    hide Zip, YamlNode.Value;
    n.ValueIs([]);
    for i := 0 to |items|
      invariant n.Valid() && n.kind == ListKind && n.tag == old(n.tag) && fresh(n.repr - {n}) && n.Value() == List(n.tag, items[..i])
    {
      assert items[..i + 1] == items[..i] + [items[i]];
      var v := Build(items[i]);
      n.AppendItem(v);
    }
    assert items[..|items|] == items;
  }

  method AddEntries(n: YamlNode, es: seq<Entry>)
    requires n.Valid() && n.kind == MappingKind && n.kids == [] && n.repr == {n}
    modifies n
    ensures n.Valid() && fresh(n.repr - {n}) && n.Value() == Mapping(old(n.tag), es)
    decreases es, 0
  {
    hide Zip, YamlNode.Value;
    n.ValueIs([]);
    NoneChosen(n);
    for i := 0 to |es|
      invariant n.Valid() && n.kind == MappingKind && n.tag == old(n.tag) && fresh(n.repr - {n}) && n.Value() == Mapping(n.tag, es[..i])
    {
      assert es[..i + 1] == es[..i] + [es[i]];
      var v := BuildEntry(es[i]);
      n.Append(es[i].key, v);
    }
    assert es[..|es|] == es;
  }

  method BuildEntry(e: Entry) returns (n: YamlNode)
    ensures n.Valid() && fresh(n.repr) && n.Value() == e.val
    decreases e, 0
  {
    n := Build(e.val);
  }

  /** resolveIncludes. On an error the tree is not used again. */
  method ResolveNode(fs: Files, n: YamlNode, dir: string, stack: seq<string>) returns (err: Option<IncludeError>)
    requires n.Valid()
    modifies n.repr
    ensures var r := ResolveIncludes(fs, old(n.Value()), dir, stack);
            if err.Some? then r == Err(err.value) else n.Valid() && fresh(n.repr - old(n.repr)) && r == Ok(n.Value())
    decreases MAX_DEPTH - |stack|, n.repr, 3
  {
    hide YamlNode.Value, MergeMapping, Splice;
    KindOf(n);
    if n.kind == ScalarKind {
      n.ValueIs([]);
      if n.tag == IncludeTag { err := SpliceNode(fs, n, dir, stack); } else { err := None; }
      return;
    }
    err := ResolveKids(fs, n, dir, stack);
    if err.None? && n.kind == MappingKind { err := MergeMappingNode(n); }
  }

  /** The values of the kids, resolved from the first on. */
  ghost predicate KidsResolved(fs: Files, vs: seq<Node>, dir: string, stack: seq<string>, i: nat, done: seq<Node>)
    requires i <= |vs|
  {
    && |done| == i
    && var r, rest := ResolveAll(fs, vs, dir, stack), ResolveAll(fs, vs[i..], dir, stack);
       if rest.Err? then r == Err(rest.error) else r == Ok(done + rest.value)
  }

  lemma {:induction false} KidResolved(fs: Files, vs: seq<Node>, dir: string, stack: seq<string>, i: nat, done: seq<Node>)
    requires i < |vs| && KidsResolved(fs, vs, dir, stack, i, done)
    ensures var r := ResolveIncludes(fs, vs[i], dir, stack);
            if r.Err? then ResolveAll(fs, vs, dir, stack) == Err(r.error) else KidsResolved(fs, vs, dir, stack, i + 1, done + [r.value])
  {
    hide ResolveIncludes;
    assert vs[i..][1..] == vs[i + 1..];
    var r, rest := ResolveIncludes(fs, vs[i], dir, stack), ResolveAll(fs, vs[i + 1..], dir, stack);
    if r.Ok? && rest.Ok? { assert done + ([r.value] + rest.value) == done + [r.value] + rest.value; }
  }

  lemma {:induction false} AllResolved(fs: Files, vs: seq<Node>, dir: string, stack: seq<string>, done: seq<Node>)
    ensures KidsResolved(fs, vs, dir, stack, 0, [])
    ensures KidsResolved(fs, vs, dir, stack, |vs|, done) ==> ResolveAll(fs, vs, dir, stack) == Ok(done)
  {
    assert vs[0..] == vs && vs[|vs|..] == [];
    assert done + [] == done;
    var r := ResolveAll(fs, vs, dir, stack);
    if r.Ok? { assert [] + r.value == r.value; }
  }

  /** Entries are resolved like their values. */
  lemma {:induction false} EntriesAreValues(fs: Files, keys: seq<string>, vs: seq<Node>, dir: string, stack: seq<string>)
    requires |keys| == |vs|
    ensures var r, e := ResolveAll(fs, vs, dir, stack), ResolveEntries(fs, Zip(keys, vs), dir, stack);
            if r.Err? then e == Err(r.error) else |r.value| == |keys| && e == Ok(Zip(keys, r.value))
    decreases vs
  {
    hide ResolveIncludes;
    if vs != [] {
      ZipTail(keys, vs);
      var z := Zip(keys, vs);
      assert z[0] == Entry(keys[0], vs[0]) && z[1..] == Zip(keys[1..], vs[1..]);
      EntriesAreValues(fs, keys[1..], vs[1..], dir, stack);
      var r := ResolveAll(fs, vs, dir, stack);
      if r.Ok? { ZipTail(keys, r.value); }
    }
  }

  lemma {:induction false} ZipTail(keys: seq<string>, vals: seq<Node>)
    requires |keys| == |vals| && keys != []
    ensures Zip(keys, vals) == [Entry(keys[0], vals[0])] + Zip(keys[1..], vals[1..])
  {
  }

  /** One child, whose nodes then belong to n. */
  method ResolveKid(fs: Files, n: YamlNode, i: nat, dir: string, stack: seq<string>, ghost bound: set<YamlNode>) returns (err: Option<IncludeError>)
    requires n.Valid() && i < |n.kids| && n.kids[i].repr < bound
    modifies n.repr
    ensures var r := ResolveIncludes(fs, old(n.kids[i].Value()), dir, stack);
            if err.Some? then r == Err(err.value)
            else
              && n.Valid() && fresh(n.repr - old(n.repr))
              && n.kids == old(n.kids) && n.keys == old(n.keys) && n.kind == old(n.kind) && n.tag == old(n.tag) && n.text == old(n.text)
              && r == Ok(n.kids[i].Value())
              && forall j :: 0 <= j < |n.kids| && j != i ==> n.kids[j].Value() == old(n.kids[j].Value()) && n.kids[j].repr == old(n.kids[j].repr)
    decreases MAX_DEPTH - |stack|, bound, 0
  {
    hide YamlNode.Value, ResolveIncludes;
    err := ResolveNode(fs, n.kids[i], dir, stack);
    if err.Some? { return; }
    n.repr := n.repr + n.kids[i].repr;
    assert n.Valid();
  }

  /** The children, one after another. */
  method ResolveEach(fs: Files, n: YamlNode, dir: string, stack: seq<string>, ghost vs: seq<Node>) returns (err: Option<IncludeError>, ghost done: seq<Node>)
    requires n.Valid() && |vs| == |n.kids| && forall j :: 0 <= j < |n.kids| ==> n.kids[j].Value() == vs[j]
    modifies n.repr
    ensures var r := ResolveAll(fs, vs, dir, stack);
            if err.Some? then r == Err(err.value)
            else
              && r == Ok(done) && n.Valid() && fresh(n.repr - old(n.repr))
              && n.kids == old(n.kids) && n.keys == old(n.keys) && n.kind == old(n.kind) && n.tag == old(n.tag) && n.text == old(n.text)
              && |done| == |n.kids| && forall j :: 0 <= j < |n.kids| ==> n.kids[j].Value() == done[j]
    decreases MAX_DEPTH - |stack|, n.repr, 1
  {
    hide YamlNode.Value, ResolveIncludes, ResolveAll, KidsResolved;
    var kids := n.kids;
    err, done := None, [];
    AllResolved(fs, vs, dir, stack, []);
    for i := 0 to |kids|
      invariant n.Valid() && n.kids == kids && n.keys == old(n.keys) && n.kind == old(n.kind) && n.tag == old(n.tag) && n.text == old(n.text)
      invariant fresh(n.repr - old(n.repr)) && err == None
      invariant |done| == i && KidsResolved(fs, vs, dir, stack, i, done)
      invariant forall j :: 0 <= j < i ==> kids[j].Value() == done[j]
      invariant forall j :: i <= j < |kids| ==> kids[j].Value() == vs[j] && kids[j].repr == old(kids[j].repr)
    {
      KidResolved(fs, vs, dir, stack, i, done);
      err := ResolveKid(fs, n, i, dir, stack, old(n.repr));
      if err.Some? { return; }
      done := done + [kids[i].Value()];
    }
    AllResolved(fs, vs, dir, stack, done);
  }

  method ResolveKids(fs: Files, n: YamlNode, dir: string, stack: seq<string>) returns (err: Option<IncludeError>)
    requires n.Valid() && n.kind != ScalarKind
    modifies n.repr
    ensures var v := old(n.Value());
            if v.List? then
              var r := ResolveAll(fs, v.items, dir, stack);
              if err.Some? then r == Err(err.value) else n.Valid() && fresh(n.repr - old(n.repr)) && n.kind == old(n.kind) && r.Ok? && n.Value() == List(v.tag, r.value)
            else
              var r := ResolveEntries(fs, v.entries, dir, stack);
              if err.Some? then r == Err(err.value) else n.Valid() && fresh(n.repr - old(n.repr)) && n.kind == old(n.kind) && n.tag == v.tag && r.Ok? && n.Value() == Mapping(v.tag, r.value)
    decreases MAX_DEPTH - |stack|, n.repr, 2
  {
    hide Zip, YamlNode.Value, YamlNode.Vals, ResolveAll, ResolveEntries;
    ghost var vs := n.Vals(|n.kids|);
    KindOf(n);
    n.ValueIs(vs);
    if n.kind == MappingKind { EntriesAreValues(fs, n.keys, vs, dir, stack); }
    ghost var done;
    err, done := ResolveEach(fs, n, dir, stack, vs);
    if err.None? { n.ValueIs(done); }
  }

  /** spliceInclude: the node takes over what the root of the included file holds. */
  method SpliceNode(fs: Files, n: YamlNode, dir: string, stack: seq<string>) returns (err: Option<IncludeError>)
    requires n.Valid() && n.kind == ScalarKind && n.tag == IncludeTag
    modifies n.repr
    ensures var r := Splice(fs, old(n.text), dir, stack);
            if err.Some? then r == Err(err.value) else n.Valid() && fresh(n.repr - old(n.repr)) && r == Ok(n.Value())
    decreases MAX_DEPTH - |stack|, {n}, 0
  {
    hide YamlNode.Value, ResolveIncludes, Strip;
    if |stack| >= MAX_DEPTH { return Some(Depth(n.text)); }
    var p := fs.join(dir, n.text);
    if p in stack { return Some(Cycle(p)); }
    if p !in fs.trees { return Some(Unreadable(p)); }
    var root := Build(fs.trees[p]);
    err := ResolveNode(fs, root, fs.dirOf(p), stack + [p]);
    if err.Some? { return; }
    StripRemove(root);
    TakeOver(n, root);
  }

  /** *n = *root */
  method TakeOver(n: YamlNode, root: YamlNode)
    requires n.Valid() && root.Valid() && n !in root.repr
    modifies n
    ensures n.Valid() && n.repr == {n} + root.repr && n.Value() == old(root.Value())
  {
    hide YamlNode.Value, YamlNode.Vals;
    ghost var vs := root.Vals(|root.kids|);
    root.ValueIs(vs);
    n.kind, n.tag, n.text, n.keys, n.kids := root.kind, root.tag, root.text, root.keys, root.kids;
    n.repr := {n} + root.repr;
    assert root.Valid() && forall j :: 0 <= j < |root.kids| ==> root.kids[j].Value() == vs[j];
    assert n.Valid();
    n.ValueIs(vs);
  }

  /** resolveTree. */
  method ResolveTree(fs: Files, n: YamlNode, dir: string, stack: seq<string>) returns (err: Option<IncludeError>)
    requires n.Valid()
    modifies n.repr
    ensures var r := Resolve(fs, old(n.Value()), dir, stack);
            if err.Some? then r == Err(err.value) else n.Valid() && r == Ok(n.Value())
  {
    hide YamlNode.Value, ResolveIncludes, Strip;
    err := ResolveNode(fs, n, dir, stack);
    if err.Some? { return; }
    StripRemove(n);
  }
}
