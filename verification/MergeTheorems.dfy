// tools/socgen/design/include.go: what is left in a resolved tree, and that resolving it again changes nothing.

module MergeTheorems {
  import opened Common
  import opened MergeSpec

  /** No scalar !include and no merge key anywhere. */
  predicate Settled(n: Node)
    decreases n, 0
  {
    match n
    case Scalar(t, _) => t != IncludeTag
    case List(_, items) => forall x :: x in items ==> Settled(x)
    case Mapping(_, es) => EntriesSettled(es)
  }

  predicate EntriesSettled(es: seq<Entry>)
    decreases es, 1
  {
    forall e :: e in es ==> EntrySettled(e)
  }

  predicate EntrySettled(e: Entry)
    decreases e, 0
  {
    e.key != MERGE_KEY && Settled(e.val)
  }

  /** No mapping has a value that is a scalar tagged !remove. */
  predicate Stripped(n: Node)
    decreases n, 0
  {
    match n
    case Scalar(_, _) => true
    case List(_, items) => forall x :: x in items ==> Stripped(x)
    case Mapping(_, es) => forall e :: e in es ==> EntryStripped(e)
  }

  predicate EntryStripped(e: Entry)
    decreases e, 0
  {
    !IsTombstone(e.val) && Stripped(e.val)
  }

  predicate AllSettled(ns: seq<Node>) { forall x :: x in ns ==> Settled(x) }

  predicate AllStripped(ns: seq<Node>) { forall x :: x in ns ==> Stripped(x) }

  predicate EntriesStripped(es: seq<Entry>) { forall e :: e in es ==> EntryStripped(e) }

  // ---- Merging and stripping keep a tree settled ----

  lemma {:induction false} MergeNodeSettled(d: Node, b: Node)
    requires Settled(d) && Settled(b)
    ensures Settled(MergeNode(d, b))
    decreases b, 0
  {
    hide EntrySettled;
    if d.Mapping? && b.Mapping? { MergeSettled(d.entries, b.entries); }
  }

  lemma {:induction false} PutSettled(es: seq<Entry>, e: Entry)
    requires EntriesSettled(es) && EntrySettled(e)
    ensures EntriesSettled(PutEntry(es, e))
    decreases e, 0
  {
    hide MergeNode, Settled;
    var i := Index(es, e.key);
    if i < |es| {
      assert EntrySettled(es[i]);
      if !IsTombstone(es[i].val) { MergeNodeSettled(es[i].val, e.val); }
    }
  }

  lemma {:induction false} MergeSettled(es: seq<Entry>, bs: seq<Entry>)
    requires EntriesSettled(es) && EntriesSettled(bs)
    ensures EntriesSettled(MergeEntries(es, bs))
    decreases bs, 1
  {
    hide EntrySettled, PutEntry;
    if bs != [] {
      var n := |bs| - 1;
      MergeSettled(es, bs[..n]);
      PutSettled(MergeEntries(es, bs[..n]), bs[n]);
    }
  }

  lemma {:induction false} StripDone(n: Node)
    ensures Stripped(Strip(n)) && (Settled(n) ==> Settled(Strip(n))) && (n.Scalar? <==> Strip(n).Scalar?) && (n.Scalar? ==> Strip(n) == n)
    decreases n, 0
  {
    hide EntrySettled, EntryStripped;
    match n
    case Scalar(_, _) =>
    case List(_, items) => StripAllDone(items);
    case Mapping(_, es) => StripEntriesDone(es);
  }

  lemma {:induction false} StripAllDone(ns: seq<Node>)
    ensures AllStripped(StripAll(ns)) && (AllSettled(ns) ==> AllSettled(StripAll(ns)))
    decreases ns, 1
  {
    hide Settled, Stripped, Strip;
    if ns != [] {
      StripDone(ns[0]);
      StripAllDone(ns[1..]);
    }
  }

  lemma {:induction false} StripEntriesDone(es: seq<Entry>)
    ensures EntriesStripped(StripEntries(es)) && (EntriesSettled(es) ==> EntriesSettled(StripEntries(es)))
    decreases es, 1
  {
    hide EntrySettled, EntryStripped, StripEntry, IsTombstone;
    if es != [] {
      StripEntryDone(es[0]);
      StripEntriesDone(es[1..]);
    }
  }

  lemma {:induction false} StripEntryDone(e: Entry)
    ensures (!IsTombstone(e.val) ==> EntryStripped(StripEntry(e))) && (EntrySettled(e) ==> EntrySettled(StripEntry(e)))
    decreases e, 0
  {
    hide Settled, Stripped, Strip;
    StripDone(e.val);
  }

  lemma {:induction false} SiblingsSettled(es: seq<Entry>)
    requires forall e :: e in es ==> Settled(e.val)
    ensures EntriesSettled(Siblings(es)) && AllSettled(MergeValues(es))
  {
    hide Settled;
    if es != [] { SiblingsSettled(es[1..]); }
  }

  lemma {:induction false} MappingSettled(t: Tag, es: seq<Entry>)
    requires forall e :: e in es ==> Settled(e.val)
    ensures MergeMapping(t, es).Ok? ==> Settled(MergeMapping(t, es).value)
  {
    hide EntrySettled, MergeEntries;
    SiblingsSettled(es);
    var vs := MergeValues(es);
    if vs != [] { assert Settled(vs[0]); }
    if vs != [] && vs[0].Mapping? { MergeSettled(Siblings(es), vs[0].entries); }
  }

  // ---- Resolving ----

  lemma {:induction false} ResolveSettled(fs: Files, n: Node, dir: string, stack: seq<string>)
    ensures var r := ResolveIncludes(fs, n, dir, stack); r.Ok? ==> Settled(r.value)
    decreases MAX_DEPTH - |stack|, n
  {
    hide Settled, MergeMapping, Splice;
    match n
    case Scalar(t, text) => if t == IncludeTag { SpliceSettled(fs, text, dir, stack); } else { ScalarSettled(n); }
    case List(t, items) =>
      AllResolved(fs, items, dir, stack);
      if ResolveAll(fs, items, dir, stack).Ok? { ListSettled(t, ResolveAll(fs, items, dir, stack).value); }
    case Mapping(t, es) =>
      EntriesResolved(fs, es, dir, stack);
      if ResolveEntries(fs, es, dir, stack).Ok? { MappingSettled(t, ResolveEntries(fs, es, dir, stack).value); }
  }

  lemma {:induction false} ScalarSettled(n: Node)
    requires n.Scalar? && n.tag != IncludeTag
    ensures Settled(n)
  {
  }

  lemma {:induction false} ListSettled(t: Tag, items: seq<Node>)
    requires AllSettled(items)
    ensures Settled(List(t, items))
  {
  }

  lemma {:induction false} SpliceSettled(fs: Files, text: string, dir: string, stack: seq<string>)
    ensures var r := Splice(fs, text, dir, stack); r.Ok? ==> Settled(r.value)
    decreases MAX_DEPTH - |stack|, Scalar(IncludeTag, text), 0
  {
    hide Settled, ResolveIncludes;
    var p := fs.join(dir, text);
    if |stack| < MAX_DEPTH && p in fs.trees {
      ResolveSettled(fs, fs.trees[p], fs.dirOf(p), stack + [p]);
      var r := ResolveIncludes(fs, fs.trees[p], fs.dirOf(p), stack + [p]);
      if r.Ok? { StripDone(r.value); }
    }
  }

  lemma {:induction false} AllResolved(fs: Files, ns: seq<Node>, dir: string, stack: seq<string>)
    ensures var r := ResolveAll(fs, ns, dir, stack); r.Ok? ==> AllSettled(r.value)
    decreases MAX_DEPTH - |stack|, ns
  {
    hide Settled, ResolveIncludes;
    if ns != [] {
      ResolveSettled(fs, ns[0], dir, stack);
      AllResolved(fs, ns[1..], dir, stack);
    }
  }

  lemma {:induction false} EntriesResolved(fs: Files, es: seq<Entry>, dir: string, stack: seq<string>)
    ensures var r := ResolveEntries(fs, es, dir, stack); r.Ok? ==> forall e :: e in r.value ==> Settled(e.val)
    decreases MAX_DEPTH - |stack|, es
  {
    hide Settled, ResolveIncludes;
    if es != [] {
      ResolveSettled(fs, es[0].val, dir, stack);
      EntriesResolved(fs, es[1..], dir, stack);
    }
  }

  /** A resolved tree has no scalar !include, no << key and no mapping value that is a scalar tagged !remove. */
  lemma {:induction false} ResolveLeavesNone(fs: Files, n: Node, dir: string, stack: seq<string>)
    ensures var r := Resolve(fs, n, dir, stack); r.Ok? ==> Settled(r.value) && Stripped(r.value)
  {
    hide ResolveIncludes, Settled, Stripped, Strip;
    ResolveSettled(fs, n, dir, stack);
    var r := ResolveIncludes(fs, n, dir, stack);
    if r.Ok? { StripDone(r.value); }
  }

  // ---- Resolving a resolved tree ----

  lemma {:induction false} StripFixed(n: Node)
    requires Stripped(n)
    ensures Strip(n) == n
    decreases n, 0
  {
    hide EntryStripped;
    match n
    case Scalar(_, _) =>
    case List(_, items) => StripAllFixed(items);
    case Mapping(_, es) => StripEntriesFixed(es);
  }

  lemma {:induction false} StripAllFixed(ns: seq<Node>)
    requires AllStripped(ns)
    ensures StripAll(ns) == ns
    decreases ns, 1
  {
    hide Stripped, Strip;
    if ns != [] {
      StripFixed(ns[0]);
      StripAllFixed(ns[1..]);
    }
  }

  lemma {:induction false} StripEntriesFixed(es: seq<Entry>)
    requires EntriesStripped(es)
    ensures StripEntries(es) == es
    decreases es, 1
  {
    hide EntryStripped, StripEntry, IsTombstone;
    if es != [] {
      StripEntryFixed(es[0]);
      StripEntriesFixed(es[1..]);
    }
  }

  lemma {:induction false} StripEntryFixed(e: Entry)
    requires EntryStripped(e)
    ensures StripEntry(e) == e && !IsTombstone(e.val)
    decreases e, 0
  {
    hide Stripped, Strip;
    StripFixed(e.val);
  }

  lemma {:induction false} ResolveFixed(fs: Files, n: Node, dir: string, stack: seq<string>)
    requires Settled(n)
    ensures ResolveIncludes(fs, n, dir, stack) == Ok(n)
    decreases n, 0
  {
    hide EntrySettled;
    match n
    case Scalar(_, _) =>
    case List(_, items) => AllFixed(fs, items, dir, stack);
    case Mapping(t, es) =>
      EntriesFixed(fs, es, dir, stack);
      NothingToMerge(es);
  }

  lemma {:induction false} AllFixed(fs: Files, ns: seq<Node>, dir: string, stack: seq<string>)
    requires AllSettled(ns)
    ensures ResolveAll(fs, ns, dir, stack) == Ok(ns)
    decreases ns, 1
  {
    hide Settled, ResolveIncludes;
    if ns != [] {
      ResolveFixed(fs, ns[0], dir, stack);
      AllFixed(fs, ns[1..], dir, stack);
      assert [ns[0]] + ns[1..] == ns;
    }
  }

  lemma {:induction false} EntriesFixed(fs: Files, es: seq<Entry>, dir: string, stack: seq<string>)
    requires EntriesSettled(es)
    ensures ResolveEntries(fs, es, dir, stack) == Ok(es)
    decreases es, 1
  {
    hide EntrySettled, ResolveIncludes;
    if es != [] {
      EntryFixed(fs, es[0], dir, stack);
      EntriesFixed(fs, es[1..], dir, stack);
      assert [Entry(es[0].key, es[0].val)] + es[1..] == es;
    }
  }

  lemma {:induction false} EntryFixed(fs: Files, e: Entry, dir: string, stack: seq<string>)
    requires EntrySettled(e)
    ensures ResolveIncludes(fs, e.val, dir, stack) == Ok(e.val)
    decreases e, 0
  {
    hide Settled, ResolveIncludes;
    ResolveFixed(fs, e.val, dir, stack);
  }

  lemma {:induction false} NothingToMerge(es: seq<Entry>)
    requires EntriesSettled(es)
    ensures Siblings(es) == es && MergeValues(es) == []
  {
    hide Settled;
    if es != [] {
      assert EntrySettled(es[0]);
      NothingToMerge(es[1..]);
    }
  }

  /** Resolving again, from anywhere, changes nothing. */
  lemma {:induction false} ResolveTwice(fs: Files, n: Node, dir: string, stack: seq<string>, dir': string, stack': seq<string>)
    ensures var r := Resolve(fs, n, dir, stack); r.Ok? ==> Resolve(fs, r.value, dir', stack') == r
  {
    hide ResolveIncludes, Settled, Stripped, Strip;
    ResolveLeavesNone(fs, n, dir, stack);
    var r := Resolve(fs, n, dir, stack);
    if r.Ok? {
      ResolveFixed(fs, r.value, dir', stack');
      StripFixed(r.value);
    }
  }

  /** Only scalars are recognized as tombstones: a list or mapping tagged !remove stays, and so does a tombstone in a list. */
  lemma {:induction false} TaggedTreesStay(fs: Files, key: string, items: seq<Node>, dir: string, stack: seq<string>)
    requires key != MERGE_KEY && AllSettled(items) && AllStripped(items)
    ensures var n := Mapping(NoTag, [Entry(key, List(RemoveTag, items + [Scalar(RemoveTag, "")]))]);
            Resolve(fs, n, dir, stack) == Ok(n)
  {
    hide ResolveIncludes, Strip;
    var list := List(RemoveTag, items + [Scalar(RemoveTag, "")]);
    var n := Mapping(NoTag, [Entry(key, list)]);
    assert Settled(list) && Stripped(list);
    assert EntrySettled(Entry(key, list)) && EntryStripped(Entry(key, list));
    ResolveFixed(fs, n, dir, stack);
    StripFixed(n);
  }

  // ==== tools/socgen/design/include.go: which trees resolve to one without any node tagged !include or !remove.

  predicate PlainTag(t: Tag) { t != IncludeTag && t != RemoveTag }

  /** What the source promises of a resolved tree: no node of any kind has one of the two tags. */
  predicate Unmarked(n: Node)
    decreases n, 0
  {
    PlainTag(n.tag) && match n
    case Scalar(_, _) => true
    case List(_, items) => forall x :: x in items ==> Unmarked(x)
    case Mapping(_, es) => forall e :: e in es ==> EntryUnmarked(e)
  }

  predicate EntryUnmarked(e: Entry)
    decreases e, 0
  {
    Unmarked(e.val)
  }

  /**
   * The condition on the input, following includes to the files they name: lists and mappings have neither tag, and a
   * scalar tagged !remove stands only where a mapping has it as a value.
   */
  predicate Tame(fs: Files, n: Node, dir: string, stack: seq<string>, isValue: bool)
    decreases MAX_DEPTH - |stack|, n, 1
  {
    match n
    case Scalar(t, text) => if t == IncludeTag then TameFile(fs, text, dir, stack, isValue) else t == RemoveTag ==> isValue
    case List(t, items) => PlainTag(t) && forall x :: x in items ==> Tame(fs, x, dir, stack, false)
    case Mapping(t, es) => PlainTag(t) && forall e :: e in es ==> Tame(fs, e.val, dir, stack, true)
  }

  /** An include that cannot be read ends in an error, not in a tree. */
  predicate TameFile(fs: Files, text: string, dir: string, stack: seq<string>, isValue: bool)
    decreases MAX_DEPTH - |stack|, Scalar(IncludeTag, text), 0
  {
    var p := fs.join(dir, text);
    (|stack| < MAX_DEPTH && p !in stack && p in fs.trees) ==> Tame(fs, fs.trees[p], fs.dirOf(p), stack + [p], isValue)
  }

  predicate NoMergeKeys(n: Node)
    decreases n
  {
    match n
    case Scalar(_, _) => true
    case List(_, items) => forall x :: x in items ==> NoMergeKeys(x)
    case Mapping(_, es) => forall e :: e in es ==> e.key != MERGE_KEY && NoMergeKeys(e.val)
  }

  ghost predicate NoFileMerges(fs: Files) { forall p :: p in fs.trees ==> NoMergeKeys(fs.trees[p]) }

  /** The same of a tree whose includes are spliced in and whose tombstones are still there. */
  predicate Loose(n: Node, isValue: bool)
    decreases n, 0
  {
    match n
    case Scalar(t, _) => t == RemoveTag ==> isValue
    case List(t, items) => PlainTag(t) && forall x :: x in items ==> Loose(x, false)
    case Mapping(t, es) => PlainTag(t) && EntriesLoose(es)
  }

  predicate EntriesLoose(es: seq<Entry>)
    decreases es, 1
  {
    forall e :: e in es ==> EntryLoose(e)
  }

  predicate EntryLoose(e: Entry)
    decreases e, 0
  {
    Loose(e.val, true)
  }

  predicate AllLoose(ns: seq<Node>) { forall x :: x in ns ==> Loose(x, false) }

  predicate AllTame(fs: Files, ns: seq<Node>, dir: string, stack: seq<string>) { forall x :: x in ns ==> Tame(fs, x, dir, stack, false) }

  predicate EntriesTame(fs: Files, es: seq<Entry>, dir: string, stack: seq<string>) { forall e :: e in es ==> Tame(fs, e.val, dir, stack, true) }

  predicate AllNoMerge(ns: seq<Node>) { forall x :: x in ns ==> NoMergeKeys(x) }

  predicate EntriesNoMerge(es: seq<Entry>) { forall e :: e in es ==> e.key != MERGE_KEY && NoMergeKeys(e.val) }

  // ---- Stripping ----

  lemma {:induction false} StripLoose(n: Node, isValue: bool)
    ensures Loose(Strip(n), isValue) <==> Loose(n, isValue)
    decreases n, 0
  {
    hide EntryLoose;
    match n
    case Scalar(_, _) =>
    case List(_, items) => StripAllLoose(items);
    case Mapping(_, es) => StripEntriesLoose(es);
  }

  lemma {:induction false} StripAllLoose(ns: seq<Node>)
    ensures AllLoose(StripAll(ns)) <==> AllLoose(ns)
    decreases ns, 1
  {
    hide Loose, Strip;
    if ns != [] {
      StripLoose(ns[0], false);
      StripAllLoose(ns[1..]);
      Split(ns);
    }
  }

  lemma {:induction false} Split<T>(s: seq<T>)
    requires s != []
    ensures s == [s[0]] + s[1..] && forall x :: x in s <==> x == s[0] || x in s[1..]
  {
  }

  lemma {:induction false} StripEntriesLoose(es: seq<Entry>)
    ensures EntriesLoose(StripEntries(es)) <==> EntriesLoose(es)
    decreases es, 1
  {
    hide EntryLoose, StripEntry, IsTombstone;
    if es != [] {
      StripEntryLoose(es[0]);
      StripEntriesLoose(es[1..]);
      Split(es);
    }
  }

  lemma {:induction false} StripEntryLoose(e: Entry)
    ensures (EntryLoose(StripEntry(e)) <==> EntryLoose(e)) && (IsTombstone(e.val) ==> EntryLoose(e))
    decreases e, 0
  {
    hide Strip;
    StripLoose(e.val, true);
  }

  /** In a resolved tree no mapping value is a tombstone, so a tag that is allowed nowhere is left. */
  lemma {:induction false} UnmarkedIs(n: Node, isValue: bool)
    requires Settled(n) && Stripped(n) && (isValue ==> !IsTombstone(n))
    ensures Unmarked(n) <==> Loose(n, isValue)
    decreases n, 0
  {
    hide EntryLoose, EntryUnmarked, EntrySettled, EntryStripped;
    match n
    case Scalar(_, _) =>
    case List(_, items) =>
      forall x | x in items ensures Unmarked(x) <==> Loose(x, false) { UnmarkedIs(x, false); }
    case Mapping(_, es) =>
      forall e | e in es ensures EntryUnmarked(e) <==> EntryLoose(e) { EntryUnmarkedIs(e); }
  }

  lemma {:induction false} EntryUnmarkedIs(e: Entry)
    requires EntrySettled(e) && EntryStripped(e)
    ensures EntryUnmarked(e) <==> EntryLoose(e)
    decreases e, 0
  {
    hide Unmarked, Loose, Settled, Stripped;
    UnmarkedIs(e.val, true);
  }

  // ---- Merging ----

  lemma {:induction false} MergeNodeLoose(d: Node, b: Node, isValue: bool)
    requires Loose(d, isValue) && Loose(b, true)
    ensures Loose(MergeNode(d, b), isValue)
    decreases b, 0
  {
    hide EntryLoose;
    if d.Mapping? && b.Mapping? { MergeLoose(d.entries, b.entries); }
  }

  lemma {:induction false} PutLoose(es: seq<Entry>, e: Entry)
    requires EntriesLoose(es) && EntryLoose(e)
    ensures EntriesLoose(PutEntry(es, e))
    decreases e, 0
  {
    hide MergeNode, Loose;
    var i := Index(es, e.key);
    if i < |es| {
      assert EntryLoose(es[i]);
      if !IsTombstone(es[i].val) { MergeNodeLoose(es[i].val, e.val, true); }
    }
  }

  lemma {:induction false} MergeLoose(es: seq<Entry>, bs: seq<Entry>)
    requires EntriesLoose(es) && EntriesLoose(bs)
    ensures EntriesLoose(MergeEntries(es, bs))
    decreases bs, 1
  {
    hide EntryLoose, PutEntry;
    if bs != [] {
      var n := |bs| - 1;
      MergeLoose(es, bs[..n]);
      PutLoose(MergeEntries(es, bs[..n]), bs[n]);
    }
  }

  lemma {:induction false} SiblingsLoose(es: seq<Entry>)
    requires EntriesLoose(es)
    ensures EntriesLoose(Siblings(es)) && forall v :: v in MergeValues(es) ==> Loose(v, true)
  {
    hide Loose;
    if es != [] {
      assert EntryLoose(es[0]);
      SiblingsLoose(es[1..]);
    }
  }

  lemma {:induction false} MappingLoose(t: Tag, es: seq<Entry>)
    requires PlainTag(t) && EntriesLoose(es)
    ensures MergeMapping(t, es).Ok? ==> Loose(MergeMapping(t, es).value, false)
  {
    hide EntryLoose, MergeEntries;
    SiblingsLoose(es);
    var vs := MergeValues(es);
    if vs != [] { assert Loose(vs[0], true); }
    if vs != [] && vs[0].Mapping? { MergeLoose(Siblings(es), vs[0].entries); }
  }

  lemma {:induction false} NoneMerged(es: seq<Entry>)
    requires forall e :: e in es ==> e.key != MERGE_KEY
    ensures Siblings(es) == es && MergeValues(es) == []
  {
    if es != [] { NoneMerged(es[1..]); }
  }

  // ---- Resolving ----

  lemma {:induction false} ResolveLoose(fs: Files, n: Node, dir: string, stack: seq<string>, isValue: bool)
    requires ResolveIncludes(fs, n, dir, stack).Ok?
    ensures var v := ResolveIncludes(fs, n, dir, stack).value;
            && (Tame(fs, n, dir, stack, isValue) ==> Loose(v, isValue))
            && (NoMergeKeys(n) && NoFileMerges(fs) ==> (Tame(fs, n, dir, stack, isValue) <==> Loose(v, isValue)))
    decreases MAX_DEPTH - |stack|, n, 2
  {
    hide MergeMapping, Splice, TameFile, NoFileMerges, EntryLoose;
    match n
    case Scalar(t, text) => if t == IncludeTag { FileLoose(fs, text, dir, stack, isValue); }
    case List(t, items) => ItemsLoose(fs, items, dir, stack);
    case Mapping(t, es) =>
      var r := ResolveEntries(fs, es, dir, stack).value;
      ValuesLoose(fs, es, dir, stack);
      if EntriesLoose(r) && PlainTag(t) { MappingLoose(t, r); }
      if NoMergeKeys(n) {
        NoneMerged(r);
        PlainMapping(t, r);
      }
  }

  lemma {:induction false} PlainMapping(t: Tag, es: seq<Entry>)
    requires MergeValues(es) == [] && Siblings(es) == es
    ensures MergeMapping(t, es) == Ok(Mapping(t, es))
  {
  }

  lemma {:induction false} FileLoose(fs: Files, text: string, dir: string, stack: seq<string>, isValue: bool)
    requires Splice(fs, text, dir, stack).Ok?
    ensures var v := Splice(fs, text, dir, stack).value;
            && (TameFile(fs, text, dir, stack, isValue) ==> Loose(v, isValue))
            && (NoFileMerges(fs) ==> (TameFile(fs, text, dir, stack, isValue) <==> Loose(v, isValue)))
    decreases MAX_DEPTH - |stack|, Scalar(IncludeTag, text), 1
  {
    hide Loose, ResolveIncludes, Tame, Strip, NoMergeKeys;
    var p := fs.join(dir, text);
    ResolveLoose(fs, fs.trees[p], fs.dirOf(p), stack + [p], isValue);
    StripLoose(ResolveIncludes(fs, fs.trees[p], fs.dirOf(p), stack + [p]).value, isValue);
  }

  lemma {:induction false} ItemsLoose(fs: Files, ns: seq<Node>, dir: string, stack: seq<string>)
    requires ResolveAll(fs, ns, dir, stack).Ok?
    ensures var v := ResolveAll(fs, ns, dir, stack).value;
            && (AllTame(fs, ns, dir, stack) ==> AllLoose(v))
            && (AllNoMerge(ns) && NoFileMerges(fs) ==> (AllTame(fs, ns, dir, stack) <==> AllLoose(v)))
    decreases MAX_DEPTH - |stack|, ns, 0
  {
    hide Loose, ResolveIncludes, Tame, NoMergeKeys, NoFileMerges;
    if ns != [] {
      ResolveLoose(fs, ns[0], dir, stack, false);
      ItemsLoose(fs, ns[1..], dir, stack);
      Split(ns);
      Split(ResolveAll(fs, ns, dir, stack).value);
    }
  }

  lemma {:induction false} ValuesLoose(fs: Files, es: seq<Entry>, dir: string, stack: seq<string>)
    requires ResolveEntries(fs, es, dir, stack).Ok?
    ensures var v := ResolveEntries(fs, es, dir, stack).value;
            && (EntriesTame(fs, es, dir, stack) ==> EntriesLoose(v))
            && (EntriesNoMerge(es) && NoFileMerges(fs) ==> (EntriesTame(fs, es, dir, stack) <==> EntriesLoose(v)))
            && ((forall e :: e in es ==> e.key != MERGE_KEY) ==> forall e :: e in v ==> e.key != MERGE_KEY)
    decreases MAX_DEPTH - |stack|, es, 0
  {
    hide Loose, ResolveIncludes, Tame, NoMergeKeys, NoFileMerges;
    if es != [] {
      var v := ResolveEntries(fs, es, dir, stack).value;
      ResolveLoose(fs, es[0].val, dir, stack, true);
      ValuesLoose(fs, es[1..], dir, stack);
      Split(es);
      Split(v);
      assert EntryLoose(v[0]) <==> Loose(v[0].val, true);
    }
  }

  /**
   * A tree that resolves leaves no tag anywhere when it is tame; and without << keys, only then. (With << a tag can also be
   * lost because another value overrides the one that has it.)
   */
  lemma {:induction false} ResolvedIsUnmarked(fs: Files, n: Node, dir: string, stack: seq<string>)
    requires Resolve(fs, n, dir, stack).Ok?
    ensures var v := Resolve(fs, n, dir, stack).value;
            && (Tame(fs, n, dir, stack, false) ==> Unmarked(v))
            && (NoMergeKeys(n) && NoFileMerges(fs) ==> (Tame(fs, n, dir, stack, false) <==> Unmarked(v)))
  {
    hide Loose, ResolveIncludes, Tame, NoMergeKeys, NoFileMerges, Settled, Stripped, Unmarked, Strip;
    ResolveLeavesNone(fs, n, dir, stack);
    ResolveLoose(fs, n, dir, stack, false);
    StripLoose(ResolveIncludes(fs, n, dir, stack).value, false);
    UnmarkedIs(Resolve(fs, n, dir, stack).value, false);
  }

  /** A tagged list under << that a scalar overrides is gone: the tree is not tame, and yet it resolves to one without tags. */
  lemma {:induction false} OverriddenTagIsLost(fs: Files, key: string, text: string, items: seq<Node>, dir: string, stack: seq<string>)
    requires key != MERGE_KEY && AllSettled(items)
    ensures var v, base := Scalar(NoTag, text), Mapping(NoTag, [Entry(key, List(RemoveTag, items))]);
            var n := Mapping(NoTag, [Entry(key, v), Entry(MERGE_KEY, base)]);
            Resolve(fs, n, dir, stack) == Ok(Mapping(NoTag, [Entry(key, v)])) && !Tame(fs, n, dir, stack, false)
  {
    hide ResolveIncludes, Strip, Tame, Settled;
    var v, list := Scalar(NoTag, text), List(RemoveTag, items);
    var base := Mapping(NoTag, [Entry(key, list)]);
    var es := [Entry(key, v), Entry(MERGE_KEY, base)];
    var n := Mapping(NoTag, es);
    TaggedBase(fs, key, items, dir, stack);
    ScalarSettled(v);
    ResolveFixed(fs, v, dir, stack);
    ResolveFixed(fs, base, dir, stack);
    ResolvedPair(fs, es, dir, stack);
    Overridden(key, v, list);
    ResolvedMapping(fs, NoTag, es, dir, stack);
    OneKept(key, v);
    UntameBase(fs, n, base, dir, stack);
  }

  lemma {:induction false} TaggedBase(fs: Files, key: string, items: seq<Node>, dir: string, stack: seq<string>)
    requires key != MERGE_KEY && AllSettled(items)
    ensures var base := Mapping(NoTag, [Entry(key, List(RemoveTag, items))]); Settled(base) && !Tame(fs, base, dir, stack, true)
  {
    var e := Entry(key, List(RemoveTag, items));
    assert [e][0] == e && e in [e];
    assert Settled(e.val) && EntrySettled(e);
    assert !Tame(fs, e.val, dir, stack, true);
  }

  lemma {:induction false} UntameBase(fs: Files, n: Node, base: Node, dir: string, stack: seq<string>)
    requires n.Mapping? && |n.entries| == 2 && n.entries[1].val == base && !Tame(fs, base, dir, stack, true)
    ensures !Tame(fs, n, dir, stack, false)
  {
    hide TameFile;
    assert n.entries[1] in n.entries;
  }

  lemma {:induction false} ResolvedPair(fs: Files, es: seq<Entry>, dir: string, stack: seq<string>)
    requires forall e :: e in es ==> ResolveIncludes(fs, e.val, dir, stack) == Ok(e.val)
    ensures ResolveEntries(fs, es, dir, stack) == Ok(es)
    decreases es
  {
    hide ResolveIncludes;
    if es != [] {
      ResolvedPair(fs, es[1..], dir, stack);
      assert es[0] in es && [Entry(es[0].key, es[0].val)] + es[1..] == es;
    }
  }

  lemma {:induction false} ResolvedMapping(fs: Files, t: Tag, es: seq<Entry>, dir: string, stack: seq<string>)
    requires ResolveEntries(fs, es, dir, stack) == Ok(es)
    ensures ResolveIncludes(fs, Mapping(t, es), dir, stack) == MergeMapping(t, es)
  {
    hide MergeMapping, ResolveEntries;
  }

  lemma {:induction false} Overridden(key: string, v: Node, list: Node)
    requires key != MERGE_KEY && v.Scalar? && v.tag == NoTag
    ensures MergeMapping(NoTag, [Entry(key, v), Entry(MERGE_KEY, Mapping(NoTag, [Entry(key, list)]))]) == Ok(Mapping(NoTag, [Entry(key, v)]))
  {
    var base := [Entry(key, list)];
    var es := [Entry(key, v), Entry(MERGE_KEY, Mapping(NoTag, base))];
    PairSplit(es);
    assert base[..0] == [] && MergeEntries([es[0]], []) == [es[0]];
    assert MergeEntries([es[0]], base) == PutEntry([es[0]], base[0]);
    assert Index([es[0]], key) == 0 && MergeNode(v, list) == v;
    assert [es[0]][0 := Entry(key, v)] == [es[0]];
    assert PutEntry([es[0]], base[0]) == [es[0]];
    assert MergeMapping(NoTag, es) == Ok(Mapping(NoTag, MergeEntries(Siblings(es), base)));
  }

  lemma {:induction false} PairSplit(es: seq<Entry>)
    requires |es| == 2 && es[0].key != MERGE_KEY && es[1].key == MERGE_KEY
    ensures MergeValues(es) == [es[1].val] && Siblings(es) == [es[0]]
  {
    var t := es[1..];
    assert t[0] == es[1] && t[1..] == [];
    assert MergeValues(t[1..]) == [] && Siblings(t[1..]) == [];
    assert MergeValues(t) == [es[1].val] && Siblings(t) == [];
  }

  lemma {:induction false} OneKept(key: string, v: Node)
    requires v.Scalar? && v.tag == NoTag
    ensures Strip(Mapping(NoTag, [Entry(key, v)])) == Mapping(NoTag, [Entry(key, v)])
  {
    var es := [Entry(key, v)];
    assert es[1..] == [];
    assert StripEntries(es) == [StripEntry(es[0])] + StripEntries([]);
  }

  // ==== tools/socgen/design/include.go: exactly which trees resolve to one without any node tagged !include or !remove, merges included.

  // ---- What a base adds to a destination ----

  /** What b adds to d in a merge is loose: list items, values under new keys, and so on below. The rest of b is lost. */
  predicate Adds(d: Node, b: Node)
    decreases b, 0
  {
    if d.Mapping? && b.Mapping? then EntriesAdd(d.entries, b.entries) else d.List? && b.List? ==> AllLoose(b.items)
  }

  predicate EntryAdds(es: seq<Entry>, e: Entry)
    decreases e, 0
  {
    match Lookup(es, e.key)
    case None => Loose(e.val, true)
    case Some(d) => IsTombstone(d) || Adds(d, e.val)
  }

  predicate EntriesAdd(es: seq<Entry>, bs: seq<Entry>)
    decreases bs, 1
  {
    bs == [] || (EntriesAdd(es, bs[..|bs| - 1]) && EntryAdds(MergeEntries(es, bs[..|bs| - 1]), bs[|bs| - 1]))
  }

  predicate AllAdd(es: seq<Entry>, bs: seq<Entry>) { forall e :: e in bs ==> EntryAdds(es, e) }

  /** When keys differ, each entry of the base is judged by the destination alone. */
  lemma {:induction false} EachEntryAdds(es: seq<Entry>, bs: seq<Entry>)
    requires DistinctKeys(es) && DistinctKeys(bs)
    ensures EntriesAdd(es, bs) <==> AllAdd(es, bs)
  {
    hide Lookup, MergeEntries, Adds, Loose;
    if bs != [] {
      var n := |bs| - 1;
      EachEntryAdds(es, bs[..n]);
      MergeLookup(es, bs[..n], bs[n].key);
      LookupLast(bs, bs[n].key);
      assert EntryAdds(MergeEntries(es, bs[..n]), bs[n]) <==> EntryAdds(es, bs[n]);
      assert AllAdd(es, bs) <==> AllAdd(es, bs[..n]) && EntryAdds(es, bs[n]) by {
        hide EntryAdds;
        assert bs == bs[..n] + [bs[n]];
      }
    }
  }

  lemma {:induction false} MergeNodeExact(d: Node, b: Node, isValue: bool)
    ensures Loose(MergeNode(d, b), isValue) <==> Loose(d, isValue) && Adds(d, b)
    decreases b, 0
  {
    hide EntryLoose;
    if d.Mapping? && b.Mapping? {
      MergeEntriesExact(d.entries, b.entries);
    } else if d.List? && b.List? {
      ListsExact(d, b, isValue);
    }
  }

  lemma {:induction false} ListsExact(d: Node, b: Node, isValue: bool)
    requires d.List? && b.List?
    ensures Loose(List(d.tag, d.items + b.items), isValue) <==> Loose(d, isValue) && AllLoose(b.items)
  {
    var items := d.items + b.items;
    assert AllLoose(items) <==> AllLoose(d.items) && AllLoose(b.items) by {
      hide Loose;
      assert forall x :: x in items <==> x in d.items || x in b.items;
    }
  }

  lemma {:induction false} PutExact(es: seq<Entry>, e: Entry)
    ensures EntriesLoose(PutEntry(es, e)) <==> EntriesLoose(es) && EntryAdds(es, e)
    decreases e, 0
  {
    hide MergeNode, Adds;
    var i := Index(es, e.key);
    var r := PutEntry(es, e);
    if i == |es| {
      OneMoreLoose(es, e);
      assert EntryLoose(e) <==> EntryAdds(es, e);
    } else if IsTombstone(es[i].val) {
      assert EntryLoose(es[i]);
      assert es == es[..i] + [es[i]] + es[i + 1..];
      assert forall x :: x in es <==> x in r || x == es[i];
    } else {
      MergeNodeExact(es[i].val, e.val, true);
      var x := Entry(es[i].key, MergeNode(es[i].val, e.val));
      PlaceLoose(es, i, x);
      assert r[i] == x && x in r && es[i] in es;
      assert EntryLoose(x) <==> EntryLoose(es[i]) && EntryAdds(es, e);
    }
  }

  lemma {:induction false} OneMoreLoose(es: seq<Entry>, e: Entry)
    ensures EntriesLoose(es + [e]) <==> EntriesLoose(es) && EntryLoose(e)
  {
    hide EntryLoose;
    var r := es + [e];
    assert r[|es|] == e;
    assert forall x :: x in r <==> x in es || x == e;
  }

  lemma {:induction false} PlaceLoose(es: seq<Entry>, i: nat, x: Entry)
    requires i < |es|
    ensures EntriesLoose(es[i := x]) && EntryLoose(es[i]) <==> EntriesLoose(es) && EntryLoose(x)
  {
    hide EntryLoose;
    var r := es[i := x];
    assert forall j :: 0 <= j < |es| ==> r[j] == if j == i then x else es[j];
    if EntriesLoose(r) && EntryLoose(es[i]) {
      assert r[i] == x && r[i] in r;
      forall e | e in es ensures EntryLoose(e) {
        var j :| 0 <= j < |es| && es[j] == e;
        assert j != i ==> r[j] in r;
      }
    }
    if EntriesLoose(es) && EntryLoose(x) {
      assert es[i] in es;
      forall e | e in r ensures EntryLoose(e) {
        var j :| 0 <= j < |es| && r[j] == e;
        assert es[j] in es;
      }
    }
  }

  lemma {:induction false} MergeEntriesExact(es: seq<Entry>, bs: seq<Entry>)
    ensures EntriesLoose(MergeEntries(es, bs)) <==> EntriesLoose(es) && EntriesAdd(es, bs)
    decreases bs, 1
  {
    hide EntryLoose, PutEntry, EntryAdds, EntriesLoose;
    if bs != [] {
      var n := |bs| - 1;
      MergeEntriesExact(es, bs[..n]);
      PutExact(MergeEntries(es, bs[..n]), bs[n]);
    }
  }

  // ---- The condition on the input ----

  /**
   * Following includes: lists and mappings have neither tag, a scalar tagged !remove stands only as a mapping's value, and of
   * the mapping under << only what it adds to its siblings counts.
   */
  predicate Untagged(fs: Files, n: Node, dir: string, stack: seq<string>, isValue: bool)
    decreases MAX_DEPTH - |stack|, n, 1
  {
    match n
    case Scalar(t, text) => if t == IncludeTag then FileUntagged(fs, text, dir, stack, isValue) else t == RemoveTag ==> isValue
    case List(t, items) => PlainTag(t) && forall x :: x in items ==> Untagged(fs, x, dir, stack, false)
    case Mapping(t, es) =>
      PlainTag(t) && (forall e :: e in es ==> e.key == MERGE_KEY || Untagged(fs, e.val, dir, stack, true)) && MergeAdds(fs, t, es, dir, stack)
  }

  predicate FileUntagged(fs: Files, text: string, dir: string, stack: seq<string>, isValue: bool)
    decreases MAX_DEPTH - |stack|, Scalar(IncludeTag, text), 0
  {
    var p := fs.join(dir, text);
    (|stack| < MAX_DEPTH && p !in stack && p in fs.trees) ==> Untagged(fs, fs.trees[p], fs.dirOf(p), stack + [p], isValue)
  }

  predicate MergeAdds(fs: Files, t: Tag, es: seq<Entry>, dir: string, stack: seq<string>) {
    var r := ResolveEntries(fs, es, dir, stack);
    r.Ok? && MergeValues(r.value) != [] ==> Adds(Mapping(t, Siblings(r.value)), MergeValues(r.value)[0])
  }

  predicate AllUntagged(fs: Files, ns: seq<Node>, dir: string, stack: seq<string>) {
    forall x :: x in ns ==> Untagged(fs, x, dir, stack, false)
  }

  predicate SiblingsUntagged(fs: Files, es: seq<Entry>, dir: string, stack: seq<string>) {
    forall e :: e in es ==> e.key == MERGE_KEY || Untagged(fs, e.val, dir, stack, true)
  }

  lemma {:induction false} ResolveExact(fs: Files, n: Node, dir: string, stack: seq<string>, isValue: bool)
    requires ResolveIncludes(fs, n, dir, stack).Ok?
    ensures Loose(ResolveIncludes(fs, n, dir, stack).value, isValue) <==> Untagged(fs, n, dir, stack, isValue)
    decreases MAX_DEPTH - |stack|, n, 2
  {
    hide MergeMapping, Splice, FileUntagged, EntryLoose, Adds;
    match n
    case Scalar(t, text) => if t == IncludeTag { FileExact(fs, text, dir, stack, isValue); }
    case List(t, items) => ItemsExact(fs, items, dir, stack);
    case Mapping(t, es) =>
      var r := ResolveEntries(fs, es, dir, stack).value;
      SiblingsExact(fs, es, dir, stack);
      MappingExact(t, r, isValue);
  }

  lemma {:induction false} MappingExact(t: Tag, es: seq<Entry>, isValue: bool)
    requires MergeMapping(t, es).Ok?
    ensures Loose(MergeMapping(t, es).value, isValue) <==>
            PlainTag(t) && EntriesLoose(Siblings(es)) && (MergeValues(es) != [] ==> Adds(Mapping(t, Siblings(es)), MergeValues(es)[0]))
  {
    hide EntryLoose, MergeEntries, EntriesAdd;
    if MergeValues(es) != [] { MergeEntriesExact(Siblings(es), MergeValues(es)[0].entries); }
  }

  lemma {:induction false} FileExact(fs: Files, text: string, dir: string, stack: seq<string>, isValue: bool)
    requires Splice(fs, text, dir, stack).Ok?
    ensures Loose(Splice(fs, text, dir, stack).value, isValue) <==> FileUntagged(fs, text, dir, stack, isValue)
    decreases MAX_DEPTH - |stack|, Scalar(IncludeTag, text), 1
  {
    hide Loose, ResolveIncludes, Untagged, Strip;
    var p := fs.join(dir, text);
    ResolveExact(fs, fs.trees[p], fs.dirOf(p), stack + [p], isValue);
    StripLoose(ResolveIncludes(fs, fs.trees[p], fs.dirOf(p), stack + [p]).value, isValue);
  }

  lemma {:induction false} ItemsExact(fs: Files, ns: seq<Node>, dir: string, stack: seq<string>)
    requires ResolveAll(fs, ns, dir, stack).Ok?
    ensures AllLoose(ResolveAll(fs, ns, dir, stack).value) <==> AllUntagged(fs, ns, dir, stack)
    decreases MAX_DEPTH - |stack|, ns, 0
  {
    hide Loose, ResolveIncludes, Untagged;
    if ns != [] {
      ResolveExact(fs, ns[0], dir, stack, false);
      ItemsExact(fs, ns[1..], dir, stack);
      Split(ns);
      Split(ResolveAll(fs, ns, dir, stack).value);
    }
  }

  lemma {:induction false} SiblingsExact(fs: Files, es: seq<Entry>, dir: string, stack: seq<string>)
    requires ResolveEntries(fs, es, dir, stack).Ok?
    ensures EntriesLoose(Siblings(ResolveEntries(fs, es, dir, stack).value)) <==> SiblingsUntagged(fs, es, dir, stack)
    decreases MAX_DEPTH - |stack|, es, 0
  {
    hide Loose, ResolveIncludes, Untagged;
    if es != [] {
      var v := ResolveEntries(fs, es, dir, stack).value;
      ResolveExact(fs, es[0].val, dir, stack, true);
      SiblingsExact(fs, es[1..], dir, stack);
      Split(es);
      assert v[1..] == ResolveEntries(fs, es[1..], dir, stack).value;
      assert EntryLoose(v[0]) <==> Loose(v[0].val, true);
      assert Siblings(v) == (if v[0].key == MERGE_KEY then [] else [v[0]]) + Siblings(v[1..]);
    }
  }

  /** A tree that resolves leaves no tag anywhere exactly when it is untagged in this sense. */
  lemma {:induction false} ResolvedUnmarkedExactly(fs: Files, n: Node, dir: string, stack: seq<string>)
    requires Resolve(fs, n, dir, stack).Ok?
    ensures Unmarked(Resolve(fs, n, dir, stack).value) <==> Untagged(fs, n, dir, stack, false)
  {
    hide Loose, ResolveIncludes, Untagged, Settled, Stripped, Unmarked, Strip;
    ResolveLeavesNone(fs, n, dir, stack);
    ResolveExact(fs, n, dir, stack, false);
    StripLoose(ResolveIncludes(fs, n, dir, stack).value, false);
    UnmarkedIs(Resolve(fs, n, dir, stack).value, false);
  }
}
