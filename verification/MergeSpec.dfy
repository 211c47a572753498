// tools/socgen/design/include.go: the merge of two mappings, and what it means at every depth.

module MergeSpec {
  import opened Common

  datatype Tag = NoTag | IncludeTag | RemoveTag | OtherTag(name: string)

  /** A YAML tree without aliases. */
  datatype Node =
    | Scalar(tag: Tag, text: string)
    | List(tag: Tag, items: seq<Node>)
    | Mapping(tag: Tag, entries: seq<Entry>)

  datatype Entry = Entry(key: string, val: Node)

  const MERGE_KEY := "<<"

  /** A scalar tagged !remove. */
  predicate IsTombstone(v: Node) { v.Scalar? && v.tag == RemoveTag }

  /** mapIndex; the length when there is none. */
  function Index(es: seq<Entry>, k: string): (i: nat)
    ensures i <= |es| && (i < |es| ==> es[i].key == k) && forall j :: 0 <= j < i ==> es[j].key != k
  {
    if es == [] then 0 else if es[0].key == k then 0 else 1 + Index(es[1..], k)
  }

  function Lookup(es: seq<Entry>, k: string): Option<Node> {
    var i := Index(es, k);
    if i < |es| then Some(es[i].val) else None
  }

  predicate DistinctKeys(es: seq<Entry>) { forall i, j :: 0 <= i < j < |es| ==> es[i].key != es[j].key }

  // ---- deepMergeInto as a fold over the base's entries ----

  function MergeNode(d: Node, b: Node): Node
    decreases b, 0
  {
    if d.Mapping? && b.Mapping? then Mapping(d.tag, MergeEntries(d.entries, b.entries))
    else if d.List? && b.List? then List(d.tag, d.items + b.items)
    else d
  }

  function PutEntry(es: seq<Entry>, e: Entry): seq<Entry>
    decreases e, 0
  {
    var i := Index(es, e.key);
    if i == |es| then es + [e]
    else if IsTombstone(es[i].val) then es[..i] + es[i + 1..]
    else es[i := Entry(es[i].key, MergeNode(es[i].val, e.val))]
  }

  function MergeEntries(es: seq<Entry>, bs: seq<Entry>): seq<Entry>
    decreases bs, 1
  {
    if bs == [] then es else PutEntry(MergeEntries(es, bs[..|bs| - 1]), bs[|bs| - 1])
  }

  // ---- Key by key ----

  /** What a key has after the merge: the destination wins, mappings merge, lists join, a tombstone deletes what it meets. */
  function Merged(d: Option<Node>, b: Option<Node>): Option<Node> {
    if d.None? then b
    else if b.None? then d
    else if IsTombstone(d.value) then None
    else Some(MergeNode(d.value, b.value))
  }

  lemma {:induction false} IndexUnique(es: seq<Entry>, i: nat)
    requires DistinctKeys(es) && i < |es|
    ensures Index(es, es[i].key) == i
  {
  }

  lemma {:induction false} LookupIs(es: seq<Entry>, k: string, i: nat)
    requires DistinctKeys(es) && i < |es| && es[i].key == k
    ensures Lookup(es, k) == Some(es[i].val)
  {
    IndexUnique(es, i);
  }

  lemma {:induction false} LookupNone(es: seq<Entry>, k: string)
    requires forall i :: 0 <= i < |es| ==> es[i].key != k
    ensures Lookup(es, k) == None
  {
  }

  /** One entry: its key is merged, the others stay, and keys stay distinct. */
  lemma {:induction false} PutLookup(es: seq<Entry>, e: Entry, k: string)
    requires DistinctKeys(es)
    ensures DistinctKeys(PutEntry(es, e))
    ensures Lookup(PutEntry(es, e), k) == if k == e.key then Merged(Lookup(es, k), Some(e.val)) else Lookup(es, k)
  {
    hide MergeNode;
    var i := Index(es, e.key);
    var r := PutEntry(es, e);
    if i < |es| && IsTombstone(es[i].val) {
      forall a, b | 0 <= a < b < |r| ensures r[a].key != r[b].key {
        assert r[a] == es[if a < i then a else a + 1] && r[b] == es[if b < i then b else b + 1];
      }
    }
    var j := Index(es, k);
    if k == e.key {
      if i == |es| { LookupIs(r, k, i); } else if IsTombstone(es[i].val) { Removed(es, i, k); } else { LookupIs(r, k, i); }
    } else if j < |es| {
      var j' := if i < |es| && IsTombstone(es[i].val) && j > i then j - 1 else j;
      LookupIs(r, k, j');
    } else {
      LookupNone(r, k);
    }
  }

  lemma {:induction false} Removed(es: seq<Entry>, i: nat, k: string)
    requires DistinctKeys(es) && i < |es| && es[i].key == k
    ensures Lookup(es[..i] + es[i + 1..], k) == None
  {
    var r := es[..i] + es[i + 1..];
    forall j | 0 <= j < |r| ensures r[j].key != k { assert r[j] == es[if j < i then j else j + 1]; }
    LookupNone(r, k);
  }

  /** The fold refines the per-key rule at every key. */
  lemma {:induction false} MergeLookup(es: seq<Entry>, bs: seq<Entry>, k: string)
    requires DistinctKeys(es) && DistinctKeys(bs)
    ensures DistinctKeys(MergeEntries(es, bs))
    ensures Lookup(MergeEntries(es, bs), k) == Merged(Lookup(es, k), Lookup(bs, k))
    decreases bs
  {
    hide MergeNode, PutEntry, Index;
    if bs == [] {
      LookupNone(bs, k);
    } else {
      var n := |bs| - 1;
      MergeLookup(es, bs[..n], k);
      PutLookup(MergeEntries(es, bs[..n]), bs[n], k);
      LookupLast(bs, k);
    }
  }

  lemma {:induction false} LookupLast(bs: seq<Entry>, k: string)
    requires DistinctKeys(bs) && bs != []
    ensures var n := |bs| - 1;
            if bs[n].key == k then Lookup(bs, k) == Some(bs[n].val) && Lookup(bs[..n], k) == None else Lookup(bs, k) == Lookup(bs[..n], k)
  {
    var n := |bs| - 1;
    if bs[n].key == k {
      LookupIs(bs, k, n);
      LookupNone(bs[..n], k);
    } else {
      var i := Index(bs, k);
      if i < |bs| { LookupIs(bs[..n], k, i); } else { LookupNone(bs[..n], k); }
    }
  }

  // ---- The order of keys ----

  function Keys(es: seq<Entry>): (ks: seq<string>)
    ensures |ks| == |es| && forall i :: 0 <= i < |es| ==> ks[i] == es[i].key
  {
    if es == [] then [] else Keys(es[..|es| - 1]) + [es[|es| - 1].key]
  }

  /** The destination's keys that are not deleted, in their order. */
  function Kept(es: seq<Entry>, bs: seq<Entry>): seq<string> {
    if es == [] then []
    else
      var e := es[|es| - 1];
      Kept(es[..|es| - 1], bs) + if IsTombstone(e.val) && Lookup(bs, e.key).Some? then [] else [e.key]
  }

  /** The base's keys that the destination does not have, in their order. */
  function Added(es: seq<Entry>, bs: seq<Entry>): seq<string> {
    if bs == [] then []
    else
      var e := bs[|bs| - 1];
      Added(es, bs[..|bs| - 1]) + if Lookup(es, e.key).Some? then [] else [e.key]
  }

  function Without(ks: seq<string>, k: string): seq<string> {
    if ks == [] then [] else Without(ks[..|ks| - 1], k) + if ks[|ks| - 1] == k then [] else [ks[|ks| - 1]]
  }

  lemma {:induction false} WithoutConcat(a: seq<string>, b: seq<string>, k: string)
    ensures Without(a + b, k) == Without(a, k) + Without(b, k)
    decreases |b|
  {
    if b == [] {
      assert a + b == a;
    } else {
      var n := |b| - 1;
      assert (a + b)[..|a + b| - 1] == a + b[..n];
      WithoutConcat(a, b[..n], k);
    }
  }

  lemma {:induction false} WithoutAbsent(ks: seq<string>, k: string)
    requires k !in ks
    ensures Without(ks, k) == ks
  {
    if ks != [] {
      WithoutAbsent(ks[..|ks| - 1], k);
      assert ks[..|ks| - 1] + [ks[|ks| - 1]] == ks;
    }
  }

  lemma {:induction false} KeysConcat(a: seq<Entry>, b: seq<Entry>)
    ensures Keys(a + b) == Keys(a) + Keys(b)
    decreases |b|
  {
    if b == [] {
      assert a + b == a;
    } else {
      assert (a + b)[..|a + b| - 1] == a + b[..|b| - 1];
      KeysConcat(a, b[..|b| - 1]);
    }
  }

  lemma {:induction false} KeysAround(a: seq<Entry>, x: Entry, b: seq<Entry>)
    ensures Keys(a + [x] + b) == Keys(a) + [x.key] + Keys(b) && Keys(a + b) == Keys(a) + Keys(b)
  {
    KeysConcat(a, b);
    KeysConcat(a + [x], b);
    assert (a + [x])[..|a|] == a;
  }

  lemma {:induction false} WithoutAround(p: seq<string>, k: string, q: seq<string>)
    requires k !in p && k !in q
    ensures Without(p + [k] + q, k) == p + q
  {
    WithoutConcat(p + [k], q, k);
    WithoutLast(p, k);
    WithoutAbsent(p, k);
    WithoutAbsent(q, k);
  }

  lemma {:induction false} KeysRemoved(es: seq<Entry>, i: nat)
    requires DistinctKeys(es) && i < |es|
    ensures Keys(es[..i] + es[i + 1..]) == Without(Keys(es), es[i].key)
  {
    hide Keys, Without;
    var a, b, k := es[..i], es[i + 1..], es[i].key;
    assert es == a + [es[i]] + b;
    KeysAround(a, es[i], b);
    assert k !in Keys(a) && k !in Keys(b);
    WithoutAround(Keys(a), k, Keys(b));
  }

  predicate Deletes(es: seq<Entry>, k: string) { Lookup(es, k).Some? && IsTombstone(Lookup(es, k).value) }

  lemma {:induction false} KeptStep(es: seq<Entry>, bs: seq<Entry>)
    requires es != []
    ensures var n := |es| - 1;
            Kept(es, bs) == Kept(es[..n], bs) + if IsTombstone(es[n].val) && Lookup(bs, es[n].key).Some? then [] else [es[n].key]
  {
  }

  /** A further base entry takes its key from the kept ones exactly when it meets a tombstone. */
  lemma {:induction false} KeptLast(es: seq<Entry>, bs: seq<Entry>)
    requires DistinctKeys(es) && DistinctKeys(bs) && bs != []
    ensures var k := bs[|bs| - 1].key;
            var front := bs[..|bs| - 1];
            Kept(es, bs) == if Deletes(es, k) then Without(Kept(es, front), k) else Kept(es, front)
    decreases es
  {
    hide Lookup, IsTombstone, Without, Kept;
    var k, front := bs[|bs| - 1].key, bs[..|bs| - 1];
    if es == [] {
      NoneKept(bs, k);
      NoneKept(front, k);
    } else {
      var n := |es| - 1;
      KeptLast(es[..n], bs);
      KeptStep(es, bs);
      KeptStep(es, front);
      LookupLast(es, k);
      LookupLast(bs, es[n].key);
      KeptFrom(es[..n], front);
      if es[n].key == k {
        assert k !in Keys(es[..n]);
        WithoutAbsent(Kept(es[..n], front), k);
        WithoutLast(Kept(es[..n], front), k);
      } else {
        WithoutOther(Kept(es[..n], front), es[n].key, k);
        assert Kept(es[..n], front) + [] == Kept(es[..n], front);
      }
    }
  }

  lemma {:induction false} NoneKept(bs: seq<Entry>, k: string)
    ensures Kept([], bs) == [] && Without([], k) == [] && Lookup([], k) == None
  {
  }

  lemma {:induction false} KeptFrom(es: seq<Entry>, bs: seq<Entry>)
    ensures forall k :: k in Kept(es, bs) ==> k in Keys(es)
  {
    if es != [] { KeptFrom(es[..|es| - 1], bs); }
  }

  lemma {:induction false} WithoutLast(ks: seq<string>, k: string)
    ensures Without(ks + [k], k) == Without(ks, k)
  {
    assert (ks + [k])[..|ks|] == ks;
  }

  lemma {:induction false} WithoutOther(ks: seq<string>, l: string, k: string)
    requires l != k
    ensures Without(ks + [l], k) == Without(ks, k) + [l]
  {
    assert (ks + [l])[..|ks|] == ks;
  }

  lemma {:induction false} AddedFrom(es: seq<Entry>, bs: seq<Entry>)
    ensures forall k :: k in Added(es, bs) ==> k in Keys(bs) && Lookup(es, k).None?
  {
    if bs != [] { AddedFrom(es, bs[..|bs| - 1]); }
  }

  /** The keys of a merge: the destination's in their order, then the base's own in theirs. */
  lemma {:induction false} MergeKeys(es: seq<Entry>, bs: seq<Entry>)
    requires DistinctKeys(es) && DistinctKeys(bs)
    ensures Keys(MergeEntries(es, bs)) == Kept(es, bs) + Added(es, bs)
    decreases bs
  {
    hide MergeNode, Lookup, Kept, Without, Keys, IsTombstone, PutEntry;
    if bs == [] {
      NothingDeleted(es);
    } else {
      var n := |bs| - 1;
      var k := bs[n].key;
      var kept, added := Kept(es, bs[..n]), Added(es, bs[..n]);
      MergeKeys(es, bs[..n]);
      MergeLookup(es, bs[..n], k);
      LookupLast(bs, k);
      KeptLast(es, bs);
      PutKeys(MergeEntries(es, bs[..n]), bs[n]);
      AddedFrom(es, bs[..n]);
      if Deletes(es, k) {
        WithoutConcat(kept, added, k);
        WithoutAbsent(added, k);
      }
      assert kept + added + [k] == kept + (added + [k]);
    }
  }

  lemma {:induction false} NothingDeleted(es: seq<Entry>)
    ensures Kept(es, []) == Keys(es)
  {
    if es != [] { NothingDeleted(es[..|es| - 1]); }
  }

  lemma {:induction false} PutKeys(es: seq<Entry>, e: Entry)
    requires DistinctKeys(es)
    ensures var d := Lookup(es, e.key);
            Keys(PutEntry(es, e)) == if d.None? then Keys(es) + [e.key] else if Deletes(es, e.key) then Without(Keys(es), e.key) else Keys(es)
  {
    hide MergeNode;
    var i := Index(es, e.key);
    if i == |es| {
      KeysConcat(es, [e]);
      assert Keys([e]) == [e.key];
    } else if IsTombstone(es[i].val) {
      KeysRemoved(es, i);
    }
  }

  // ---- Resolving a tree ----

  datatype IncludeError = Depth(path: string) | Cycle(path: string) | Unreadable(path: string) | ManyMerges | NotAMapping

  datatype Result<T> = Ok(value: T) | Err(error: IncludeError)

  /** The files that includes can name, after parsing, and how a path is found from the directory of the including file. */
  datatype Files = Files(trees: map<string, Node>, join: (string, string) -> string, dirOf: string -> string)

  const MAX_DEPTH := 16

  /** stripRemove. */
  function Strip(n: Node): Node {
    match n
    case Scalar(_, _) => n
    case List(t, items) => List(t, StripAll(items))
    case Mapping(t, es) => Mapping(t, StripEntries(es))
  }

  function StripAll(ns: seq<Node>): seq<Node> { if ns == [] then [] else [Strip(ns[0])] + StripAll(ns[1..]) }

  function StripEntries(es: seq<Entry>): seq<Entry> {
    if es == [] then [] else (if IsTombstone(es[0].val) then [] else [StripEntry(es[0])]) + StripEntries(es[1..])
  }

  function StripEntry(e: Entry): Entry { Entry(e.key, Strip(e.val)) }

  /** The entries under other keys than <<, and the values under <<. */
  function Siblings(es: seq<Entry>): seq<Entry> {
    if es == [] then [] else (if es[0].key == MERGE_KEY then [] else [es[0]]) + Siblings(es[1..])
  }

  function MergeValues(es: seq<Entry>): seq<Node> {
    if es == [] then [] else (if es[0].key == MERGE_KEY then [es[0].val] else []) + MergeValues(es[1..])
  }

  /** mergeMapping. */
  function MergeMapping(t: Tag, es: seq<Entry>): Result<Node> {
    var vs := MergeValues(es);
    if |vs| > 1 then Err(ManyMerges)
    else if vs == [] then Ok(Mapping(t, Siblings(es)))
    else if !vs[0].Mapping? then Err(NotAMapping)
    else Ok(Mapping(t, MergeEntries(Siblings(es), vs[0].entries)))
  }

  /** resolveIncludes: stack holds the files being read. */
  function ResolveIncludes(fs: Files, n: Node, dir: string, stack: seq<string>): Result<Node>
    decreases MAX_DEPTH - |stack|, n
  {
    match n
    case Scalar(t, text) => if t == IncludeTag then Splice(fs, text, dir, stack) else Ok(n)
    case List(t, items) =>
      var r := ResolveAll(fs, items, dir, stack);
      if r.Err? then Err(r.error) else Ok(List(t, r.value))
    case Mapping(t, es) =>
      var r := ResolveEntries(fs, es, dir, stack);
      if r.Err? then Err(r.error) else MergeMapping(t, r.value)
  }

  function Splice(fs: Files, text: string, dir: string, stack: seq<string>): Result<Node>
    decreases MAX_DEPTH - |stack|, Scalar(IncludeTag, text), 0
  {
    var p := fs.join(dir, text);
    if |stack| >= MAX_DEPTH then Err(Depth(text))
    else if p in stack then Err(Cycle(p))
    else if p !in fs.trees then Err(Unreadable(p))
    else
      var r := ResolveIncludes(fs, fs.trees[p], fs.dirOf(p), stack + [p]);
      if r.Err? then r else Ok(Strip(r.value))
  }

  function ResolveAll(fs: Files, ns: seq<Node>, dir: string, stack: seq<string>): (r: Result<seq<Node>>)
    decreases MAX_DEPTH - |stack|, ns
  {
    if ns == [] then Ok([])
    else
      var h := ResolveIncludes(fs, ns[0], dir, stack);
      if h.Err? then Err(h.error)
      else
        var t := ResolveAll(fs, ns[1..], dir, stack);
        if t.Err? then t else Ok([h.value] + t.value)
  }

  function ResolveEntries(fs: Files, es: seq<Entry>, dir: string, stack: seq<string>): (r: Result<seq<Entry>>)
    decreases MAX_DEPTH - |stack|, es
  {
    if es == [] then Ok([])
    else
      var h := ResolveIncludes(fs, es[0].val, dir, stack);
      if h.Err? then Err(h.error)
      else
        var t := ResolveEntries(fs, es[1..], dir, stack);
        if t.Err? then t else Ok([Entry(es[0].key, h.value)] + t.value)
  }

  /** resolveTree. */
  function Resolve(fs: Files, n: Node, dir: string, stack: seq<string>): Result<Node> {
    var r := ResolveIncludes(fs, n, dir, stack);
    if r.Err? then r else Ok(Strip(r.value))
  }

  // ==== tools/socgen/design/include.go: what a merge and the removal of tombstones mean, at every depth.

  // ---- Merging ----

  /** r is d merged over b: two mappings relate key by key, two lists join with d's items first, and any other d stays as it is. */
  ghost predicate Merges(d: Node, b: Node, r: Node)
    decreases b, 0
  {
    if d.Mapping? && b.Mapping? then r.Mapping? && r.tag == d.tag && EntriesMerge(d.entries, b.entries, r.entries)
    else if d.List? && b.List? then r == List(d.tag, d.items + b.items)
    else r == d
  }

  /** The keys are d's that are not deleted and then b's own; a key of d alone keeps its value. */
  ghost predicate EntriesMerge(es: seq<Entry>, bs: seq<Entry>, rs: seq<Entry>)
    decreases bs, 1
  {
    && DistinctKeys(rs) && Keys(rs) == Kept(es, bs) + Added(es, bs)
    && (forall e :: e in es && Lookup(bs, e.key) == None ==> Lookup(rs, e.key) == Some(e.val))
    && forall e :: e in bs ==> EntryMerges(es, e, rs)
  }

  /** An entry of b comes in under a new key, is deleted by a tombstone, or is merged under d's value. */
  ghost predicate EntryMerges(es: seq<Entry>, e: Entry, rs: seq<Entry>)
    decreases e, 0
  {
    match Lookup(es, e.key)
    case None => Lookup(rs, e.key) == Some(e.val)
    case Some(v) => if IsTombstone(v) then Lookup(rs, e.key) == None else Lookup(rs, e.key).Some? && Merges(v, e.val, Lookup(rs, e.key).value)
  }

  /** No mapping anywhere has a key twice. */
  ghost predicate AllDistinct(n: Node)
    decreases n, 0
  {
    match n
    case Scalar(_, _) => true
    case List(_, items) => forall x :: x in items ==> AllDistinct(x)
    case Mapping(_, es) => DistinctKeys(es) && forall e :: e in es ==> EntryDistinct(e)
  }

  ghost predicate EntryDistinct(e: Entry)
    decreases e, 0
  {
    AllDistinct(e.val)
  }

  lemma {:induction false} LookupEntry(es: seq<Entry>, k: string) returns (e: Entry)
    requires Lookup(es, k).Some?
    ensures e in es && e.key == k && e.val == Lookup(es, k).value
  {
    e := es[Index(es, k)];
  }

  lemma {:induction false} EntryLookup(es: seq<Entry>, e: Entry)
    requires DistinctKeys(es) && e in es
    ensures Lookup(es, e.key) == Some(e.val)
  {
    var i :| 0 <= i < |es| && es[i] == e;
    LookupIs(es, e.key, i);
  }

  /** A merge means this, at every depth. */
  lemma {:induction false} MergeMeans(d: Node, b: Node)
    requires AllDistinct(d) && AllDistinct(b)
    ensures Merges(d, b, MergeNode(d, b))
    decreases b, 0
  {
    if d.Mapping? && b.Mapping? { EntriesMean(d.entries, b.entries); }
  }

  lemma {:induction false} EntriesMean(es: seq<Entry>, bs: seq<Entry>)
    requires DistinctKeys(es) && DistinctKeys(bs) && (forall e :: e in es ==> EntryDistinct(e)) && forall e :: e in bs ==> EntryDistinct(e)
    ensures EntriesMerge(es, bs, MergeEntries(es, bs))
    decreases bs, 1
  {
    hide Lookup, MergeEntries, EntryDistinct, EntryMerges, Kept, Added, Keys, DistinctKeys;
    var rs := MergeEntries(es, bs);
    MergeKeys(es, bs);
    MergeLookup(es, bs, "");
    forall e | e in es && Lookup(bs, e.key) == None ensures Lookup(rs, e.key) == Some(e.val) {
      MergeLookup(es, bs, e.key);
      EntryLookup(es, e);
    }
    forall e | e in bs ensures EntryMerges(es, e, rs) { EntryMeans(es, bs, e); }
  }

  lemma {:induction false} EntryMeans(es: seq<Entry>, bs: seq<Entry>, e: Entry)
    requires DistinctKeys(es) && DistinctKeys(bs) && (forall e :: e in es ==> EntryDistinct(e)) && EntryDistinct(e) && e in bs
    ensures EntryMerges(es, e, MergeEntries(es, bs))
    decreases e, 0
  {
    hide MergeEntries, MergeNode, Merges, Lookup;
    MergeLookup(es, bs, e.key);
    EntryLookup(bs, e);
    if Lookup(es, e.key).Some? {
      var v := LookupEntry(es, e.key);
      assert EntryDistinct(v);
      MergeMeans(v.val, e.val);
    }
  }

  /** And nothing else means it. */
  lemma {:induction false} MergesOnce(d: Node, b: Node, r: Node, s: Node)
    requires AllDistinct(d) && AllDistinct(b) && Merges(d, b, r) && Merges(d, b, s)
    ensures r == s
    decreases b, 0
  {
    hide EntryDistinct;
    if d.Mapping? && b.Mapping? { EntriesOnce(d.entries, b.entries, r.entries, s.entries); }
  }

  lemma {:induction false} EntriesOnce(es: seq<Entry>, bs: seq<Entry>, rs: seq<Entry>, ss: seq<Entry>)
    requires DistinctKeys(es) && DistinctKeys(bs) && (forall e :: e in es ==> EntryDistinct(e)) && forall e :: e in bs ==> EntryDistinct(e)
    requires EntriesMerge(es, bs, rs) && EntriesMerge(es, bs, ss)
    ensures rs == ss
    decreases bs, 1
  {
    hide Lookup, EntryDistinct, EntryMerges, Kept, Added, DistinctKeys, IsTombstone;
    forall i | 0 <= i < |rs| ensures rs[i] == ss[i] {
      var k := rs[i].key;
      assert Keys(rs)[i] == Keys(ss)[i];
      EntryLookup(rs, rs[i]);
      EntryLookup(ss, ss[i]);
      if Lookup(bs, k).Some? {
        var e := LookupEntry(bs, k);
        EntryOnce(es, e, rs, ss);
      } else {
        KeyFrom(es, bs, k);
        var e := LookupEntry(es, k);
        assert e in es;
      }
    }
  }

  lemma {:induction false} EntryOnce(es: seq<Entry>, e: Entry, rs: seq<Entry>, ss: seq<Entry>)
    requires (forall e :: e in es ==> EntryDistinct(e)) && EntryDistinct(e) && EntryMerges(es, e, rs) && EntryMerges(es, e, ss)
    ensures Lookup(rs, e.key) == Lookup(ss, e.key)
    decreases e, 0
  {
    hide Lookup, Merges;
    if Lookup(es, e.key).Some? && !IsTombstone(Lookup(es, e.key).value) {
      var v := LookupEntry(es, e.key);
      assert EntryDistinct(v);
      MergesOnce(v.val, e.val, Lookup(rs, e.key).value, Lookup(ss, e.key).value);
    }
  }

  lemma {:induction false} KeyFrom(es: seq<Entry>, bs: seq<Entry>, k: string)
    requires DistinctKeys(es) && DistinctKeys(bs) && k in Kept(es, bs) + Added(es, bs)
    ensures Lookup(es, k).Some? || Lookup(bs, k).Some?
  {
    hide Lookup, Kept, Added;
    KeptFrom(es, bs);
    AddedFrom(es, bs);
    if k in Kept(es, bs) {
      var i :| 0 <= i < |es| && Keys(es)[i] == k;
      EntryLookup(es, es[i]);
    } else {
      var i :| 0 <= i < |bs| && Keys(bs)[i] == k;
      EntryLookup(bs, bs[i]);
    }
  }

  // ---- A merge key, and tombstones ----

  predicate NoMergeKey(es: seq<Entry>) { forall e :: e in es ==> e.key != MERGE_KEY }

  /** A mapping with one << key is the other entries, in their order, merged over its value, which has to be a mapping. */
  lemma {:induction false} MergeKeyMeans(t: Tag, a: seq<Entry>, base: Node, c: seq<Entry>)
    requires NoMergeKey(a) && NoMergeKey(c) && AllDistinct(Mapping(t, a + c)) && AllDistinct(base)
    ensures var m := MergeMapping(t, a + [Entry(MERGE_KEY, base)] + c);
            if base.Mapping? then m.Ok? && Merges(Mapping(t, a + c), base, m.value) else m == Err(NotAMapping)
  {
    hide Merges, AllDistinct, MergeMapping, NoMergeKey, Siblings, MergeValues;
    var es := a + [Entry(MERGE_KEY, base)] + c;
    OneKey(a, base, c);
    OneMerge(t, es, a + c, base);
    MergeMeans(Mapping(t, a + c), base);
  }

  lemma {:induction false} OneKey(a: seq<Entry>, base: Node, c: seq<Entry>)
    requires NoMergeKey(a) && NoMergeKey(c)
    ensures var es := a + [Entry(MERGE_KEY, base)] + c; Siblings(es) == a + c && MergeValues(es) == [base]
  {
    hide NoMergeKey, Siblings, MergeValues;
    var x := [Entry(MERGE_KEY, base)];
    OneAlone(Entry(MERGE_KEY, base));
    SiblingsConcat(a + x, c);
    SiblingsConcat(a, x);
    NoneAmong(a);
    NoneAmong(c);
    assert a + [] == a && [base] + [] == [base];
  }

  lemma {:induction false} OneAlone(e: Entry)
    ensures Siblings([e]) == (if e.key == MERGE_KEY then [] else [e]) && MergeValues([e]) == if e.key == MERGE_KEY then [e.val] else []
  {
    assert [e][1..] == [];
  }

  lemma {:induction false} OneMerge(t: Tag, es: seq<Entry>, others: seq<Entry>, base: Node)
    requires Siblings(es) == others && MergeValues(es) == [base]
    ensures MergeMapping(t, es) == if base.Mapping? then Ok(MergeNode(Mapping(t, others), base)) else Err(NotAMapping)
  {
    hide MergeEntries, Siblings, MergeValues;
  }

  /** Two << keys are an error. */
  lemma {:induction false} TwoMergeKeys(t: Tag, a: seq<Entry>, v: Node, b: seq<Entry>, w: Node, c: seq<Entry>)
    ensures MergeMapping(t, a + [Entry(MERGE_KEY, v)] + b + [Entry(MERGE_KEY, w)] + c) == Err(ManyMerges)
  {
    hide Siblings, MergeValues;
    var x, y := [Entry(MERGE_KEY, v)], [Entry(MERGE_KEY, w)];
    OneAlone(Entry(MERGE_KEY, v));
    OneAlone(Entry(MERGE_KEY, w));
    SiblingsConcat(a + x + b + y, c);
    SiblingsConcat(a + x + b, y);
    SiblingsConcat(a + x, b);
    SiblingsConcat(a, x);
  }

  lemma {:induction false} SiblingsConcat(a: seq<Entry>, b: seq<Entry>)
    ensures Siblings(a + b) == Siblings(a) + Siblings(b) && MergeValues(a + b) == MergeValues(a) + MergeValues(b)
  {
    if a == [] {
      assert a + b == b;
    } else {
      assert (a + b)[1..] == a[1..] + b && (a + b)[0] == a[0];
      SiblingsConcat(a[1..], b);
      SiblingsStep(a + b);
      SiblingsStep(a);
      hide Siblings, MergeValues;
    }
  }

  lemma {:induction false} SiblingsStep(es: seq<Entry>)
    requires es != []
    ensures Siblings(es) == (if es[0].key == MERGE_KEY then [] else [es[0]]) + Siblings(es[1..])
    ensures MergeValues(es) == (if es[0].key == MERGE_KEY then [es[0].val] else []) + MergeValues(es[1..])
  {
  }

  lemma {:induction false} NoneAmong(es: seq<Entry>)
    requires NoMergeKey(es)
    ensures Siblings(es) == es && MergeValues(es) == []
  {
    if es != [] { NoneAmong(es[1..]); }
  }

  /** Stripping takes out exactly the entries whose value is a scalar tagged !remove, and strips the other values. */
  lemma {:induction false} StripMeans(a: seq<Entry>, e: Entry, c: seq<Entry>)
    ensures StripEntries(a + [e] + c) ==
            StripEntries(a) + (if e.val.Scalar? && e.val.tag == RemoveTag then [] else [Entry(e.key, Strip(e.val))]) + StripEntries(c)
  {
    hide Strip;
    StripConcat(a + [e], c);
    StripConcat(a, [e]);
    assert [e][1..] == [] && StripEntries([]) == [];
    assert StripEntries([e]) == if IsTombstone(e.val) then [] else [StripEntry(e)];
  }

  lemma {:induction false} StripConcat(a: seq<Entry>, b: seq<Entry>)
    ensures StripEntries(a + b) == StripEntries(a) + StripEntries(b)
  {
    hide StripEntry, IsTombstone;
    if a == [] {
      assert a + b == b;
    } else {
      assert (a + b)[1..] == a[1..] + b && (a + b)[0] == a[0];
      StripConcat(a[1..], b);
      StripStep(a + b);
      StripStep(a);
      hide StripEntries;
    }
  }

  lemma {:induction false} StripStep(es: seq<Entry>)
    requires es != []
    ensures StripEntries(es) == (if IsTombstone(es[0].val) then [] else [StripEntry(es[0])]) + StripEntries(es[1..])
  {
  }
}
