// tools/socgen/emit/databus.go: the binary radix trie of device prefixes, the if/elsif/else/return tree that decode_address is compiled
// to, and what it returns.

module Decoder {
  import opened Common
  import opened BitStrings

  datatype BusDevice = BusDevice(name: string, base: nat, leftBit: int)

  // ---- The statement fragment that is generated, and what it means ----

  datatype Cond =
    | BitIs(index: int, bit: char)                 // addr(index) = 'b'
    | SliceIs(hi: int, lo: int, want: string)    // addr(hi downto lo) = "..."

  datatype Elsif = Elsif(cond: Cond, body: seq<Stmt>)

  datatype Stmt =
    | Remark(lo: int, hi: int)                     // the range comment of a leaf
    | Return(lit: string)
    | If(cond: Cond, thn: seq<Stmt>, elsifs: seq<Elsif>, els: seq<Stmt>)

  /** addr is declared std_logic_vector(31 downto 0): its text starts with bit 31. */
  ghost predicate IsAddr(v: string) { |v| == 32 && forall i :: 0 <= i < 32 ==> v[i] == '0' || v[i] == '1' }

  ghost predicate Holds(c: Cond, v: string)
    requires |v| == 32
  {
    match c
    case BitIs(i, b) => 0 <= i < 32 && v[31 - i] == b
    case SliceIs(hi, lo, s) => 0 <= lo <= hi < 32 && v[31 - hi..32 - lo] == s
  }

  /** Runs statements until one returns. */
  ghost function Exec(ss: seq<Stmt>, v: string): Option<string>
    requires |v| == 32
    decreases ss, 0
  {
    if ss == [] then None
    else match ExecOne(ss[0], v)
      case Some(r) => Some(r)
      case None => Exec(ss[1..], v)
  }

  ghost function ExecOne(s: Stmt, v: string): Option<string>
    requires |v| == 32
    decreases s, if s.If? then |s.elsifs| + 1 else 0
  {
    match s
    case Remark(_, _) => None
    case Return(r) => Some(r)
    case If(c, thn, _, _) => if Holds(c, v) then Exec(thn, v) else ExecElsifs(s, 0, v)
  }

  /** The elsif clauses from the i-th on, then the else branch. */
  ghost function ExecElsifs(s: Stmt, i: nat, v: string): Option<string>
    requires |v| == 32 && s.If? && i <= |s.elsifs|
    decreases s, |s.elsifs| - i
  {
    if i == |s.elsifs| then Exec(s.els, v)
    else if Holds(s.elsifs[i].cond, v) then Exec(s.elsifs[i].body, v)
    else ExecElsifs(s, i + 1, v)
  }

  // ---- The trie ----

  datatype Trie = Absent | Node(leaf: Option<BusDevice>, zero: Trie, one: Trie)

  const EMPTY := Node(None, Absent, Absent)

  function Child(t: Trie, k: char): Trie
    requires t.Node?
  {
    if k == '0' then t.zero else t.one
  }

  function Insert(t: Trie, prefix: string, d: BusDevice): (r: Trie)
    ensures r.Node?
  {
    var n := if t.Absent? then EMPTY else t;
    if prefix == "" then n.(leaf := Some(d))
    else if prefix[0] == '0' then n.(zero := Insert(n.zero, prefix[1..], d))
    else n.(one := Insert(n.one, prefix[1..], d))
  }

  /** The leaf stored exactly at a path. */
  function Entry(t: Trie, path: string): Option<BusDevice> {
    if t.Absent? then None
    else if path == "" then t.leaf
    else Entry(Child(t, path[0]), path[1..])
  }

  /** The first leaf met on the way down. */
  function Lookup(t: Trie, bits: string): Option<BusDevice> {
    if t.Absent? then None
    else if t.leaf.Some? then t.leaf
    else if bits == "" then None
    else Lookup(Child(t, bits[0]), bits[1..])
  }

  function Size(t: Trie): nat {
    if t.Absent? then 0 else 1 + Size(t.zero) + Size(t.one)
  }

  function Max(a: int, b: int): int { if a < b then b else a }

  function Height(t: Trie): nat {
    if t.Absent? then 0
    else Max(if t.zero.Absent? then 0 else 1 + Height(t.zero), if t.one.Absent? then 0 else 1 + Height(t.one))
  }

  /** Every branch ends in a leaf. */
  predicate Alive(t: Trie) {
    t.Node? && (t.leaf.Some? ||
      ((t.zero.Node? || t.one.Node?) && (t.zero.Node? ==> Alive(t.zero)) && (t.one.Node? ==> Alive(t.one))))
  }

  predicate Branching(t: Trie) { t.Node? && (t.leaf.Some? || (t.zero.Node? && t.one.Node?)) }

  function Without(t: Trie, k: char): Trie
    requires t.Node?
  {
    if k == '0' then Node(None, Absent, t.one) else Node(None, t.zero, Absent)
  }

  /** extractPrefix: the run of single-child nodes at the top, and what hangs below it. */
  function Collapse(t: Trie): (string, Trie) {
    if t.Node? && t.leaf.None? && t.zero.Node? && t.one.Absent? then
      var (p, u) := Collapse(t.zero); ("0" + p, u)
    else if t.Node? && t.leaf.None? && t.zero.Absent? && t.one.Node? then
      var (p, u) := Collapse(t.one); ("1" + p, u)
    else ("", t)
  }

  lemma {:induction false} CollapseFacts(t: Trie)
    ensures var (p, u) := Collapse(t);
            Size(u) + |p| <= Size(t) && (t.Node? ==> Height(u) + |p| <= Height(t)) && (Alive(t) ==> Alive(u) && Branching(u))
  {
    if t.Node? && t.leaf.None? {
      if t.zero.Node? && t.one.Absent? { CollapseFacts(t.zero); }
      if t.zero.Absent? && t.one.Node? { CollapseFacts(t.one); }
    }
  }

  method ExtractPrefix(t0: Trie) returns (prefix: string, t: Trie)
    ensures (prefix, t) == Collapse(t0)
  {
    prefix, t := "", t0;
    assert "" + Collapse(t).0 == Collapse(t).0;
    while t.Node? && t.leaf.None? && (t.zero.Node? != t.one.Node?)
      invariant Collapse(t0) == (prefix + Collapse(t).0, Collapse(t).1)
      decreases t
    {
      var k := if t.zero.Node? then '0' else '1';
      assert prefix + ([k] + Collapse(Child(t, k)).0) == (prefix + [k]) + Collapse(Child(t, k)).0;
      prefix, t := prefix + [k], Child(t, k);
    }
    assert prefix + "" == prefix;
  }

  // ---- The compiler ----

  /** Reading a Go map: the empty string stands for a missing key. */
  function At(m: map<string, string>, k: string): string { if k in m then m[k] else "" }

  function BuildCond(index: int, want: string): Cond {
    if |want| == 1 then BitIs(index, want[0])
    else SliceIs(index, index - |want| + 1, want)
  }

  function BuildIfs(offset: nat, t: Trie, lits: map<string, string>): seq<Stmt>
    requires Branching(t) && Alive(t)
    decreases Size(t)
  {
    if t.leaf.Some? then
      var d := t.leaf.value;
      [Remark(d.base, d.base + 2 * Pow2(if d.leftBit < 0 then 0 else d.leftBit) - 1), Return(At(lits, d.name))]
    else
      CollapseFacts(Without(t, '1'));
      CollapseFacts(Without(t, '0'));
      var (lp, lt) := Collapse(Without(t, '1'));
      var (rp, rt) := Collapse(Without(t, '0'));
      var ls := BuildIfs(offset + |lp|, lt, lits);
      var rs := BuildIfs(offset + |rp|, rt, lits);
      TwoWay(offset, lp, ls, rp, rs)
  }

  /** The two tests of a branch; a plain else when the tests are the single bits 0 and 1. */
  function TwoWay(offset: nat, lp: string, ls: seq<Stmt>, rp: string, rs: seq<Stmt>): seq<Stmt> {
    if lp == "0" && rp == "1" then
      [If(BuildCond(31 - offset, lp), ls, [], rs)]
    else
      [If(BuildCond(31 - offset, lp), ls, [Elsif(BuildCond(31 - offset, rp), rs)], [])]
  }

  function BuildTrie(devs: seq<BusDevice>, prefixes: map<string, string>): (t: Trie)
    ensures t.Node?
  {
    if devs == [] then EMPTY
    else
      var last := devs[|devs| - 1];
      Insert(BuildTrie(devs[..|devs| - 1], prefixes), At(prefixes, last.name), last)
  }

  /** The body of decode_address for a given prefix per device name. */
  function DecodeBody(devs: seq<BusDevice>, prefixes: map<string, string>, lits: map<string, string>): seq<Stmt> {
    var none := [Return(At(lits, "none"))];
    if devs == [] then none
    else
      BuildTrieAlive(devs, prefixes);
      CollapseFacts(BuildTrie(devs, prefixes));
      var (p, inner) := Collapse(BuildTrie(devs, prefixes));
      if |p| <= 4 then BuildIfs(|p|, inner, lits) + none
      else [If(BuildCond(27, p[4..]), BuildIfs(|p|, inner, lits), [], [])] + none
  }

  // ---- Facts about tries ----

  lemma {:induction false} InsertAlive(t: Trie, p: string, d: BusDevice)
    requires t == Absent || t == EMPTY || Alive(t)
    ensures Alive(Insert(t, p, d))
  {
    if t.Node? && t.leaf.None? && p != "" { InsertAlive(if p[0] == '0' then t.zero else t.one, p[1..], d); }
    if t.Absent? && p != "" { InsertAlive(Absent, p[1..], d); }
  }

  lemma {:induction false} BuildTrieAlive(devs: seq<BusDevice>, prefixes: map<string, string>)
    ensures BuildTrie(devs, prefixes) == EMPTY || Alive(BuildTrie(devs, prefixes))
    ensures devs != [] ==> Alive(BuildTrie(devs, prefixes))
  {
    if devs != [] {
      var n := |devs| - 1;
      BuildTrieAlive(devs[..n], prefixes);
      InsertAlive(BuildTrie(devs[..n], prefixes), At(prefixes, devs[n].name), devs[n]);
    }
  }

  predicate Binary(s: string) { forall i :: 0 <= i < |s| ==> s[i] == '0' || s[i] == '1' }

  lemma {:induction false} EntryInsert(t: Trie, p: string, d: BusDevice, q: string)
    requires Binary(p) && Binary(q)
    ensures Entry(Insert(t, p, d), q) == if q == p then Some(d) else Entry(t, q)
  {
    var n := if t.Absent? then EMPTY else t;
    if p == "" || q == "" {
      if t.Absent? && q != "" { assert Entry(Child(EMPTY, q[0]), q[1..]) == None; }
    } else {
      assert p == [p[0]] + p[1..] && q == [q[0]] + q[1..];
      EntryInsert(Child(n, p[0]), p[1..], d, q[1..]);
    }
  }

  lemma {:induction false} InsertHeight(t: Trie, p: string, d: BusDevice)
    ensures Height(Insert(t, p, d)) <= Max(Height(t), |p|)
  {
    if p != "" { InsertHeight(if t.Absent? then Absent else if p[0] == '0' then t.zero else t.one, p[1..], d); }
  }

  /** Lookup finds a leaf exactly when some initial part of the bits is an entry, and the leaf is such an entry. */
  lemma {:induction false} LookupIsEntry(t: Trie, bits: string)
    ensures Lookup(t, bits).Some? ==> exists k :: 0 <= k <= |bits| && Entry(t, bits[..k]) == Lookup(t, bits)
    ensures forall k :: 0 <= k <= |bits| && Entry(t, bits[..k]).Some? ==> Lookup(t, bits).Some?
  {
    if t.Absent? {
    } else {
      assert bits[..0] == "";
      if t.leaf.Some? {
        assert Entry(t, bits[..0]) == Lookup(t, bits);
      } else if bits != "" {
        var u := Child(t, bits[0]);
        LookupIsEntry(u, bits[1..]);
        forall k | 1 <= k <= |bits|
          ensures Entry(t, bits[..k]) == Entry(u, bits[1..][..k - 1])
        {
          assert bits[..k][1..] == bits[1..][..k - 1];
        }
        if Lookup(u, bits[1..]).Some? {
          var k :| 0 <= k <= |bits[1..]| && Entry(u, bits[1..][..k]) == Lookup(u, bits[1..]);
          assert Entry(t, bits[..k + 1]) == Lookup(t, bits);
        }
        forall k | 0 <= k <= |bits| && Entry(t, bits[..k]).Some?
          ensures Lookup(t, bits).Some?
        {
          if k > 0 { assert Entry(u, bits[1..][..k - 1]).Some?; }
        }
      }
    }
  }

  lemma {:induction false} CollapseLookup(t: Trie, bits: string)
    requires Binary(bits)
    ensures var (p, u) := Collapse(t);
            Lookup(t, bits) == if p <= bits then Lookup(u, bits[|p|..]) else None
  {
    var (p, u) := Collapse(t);
    if p != "" {
      var k, w := p[0], if p[0] == '0' then t.zero else t.one;
      assert Collapse(w) == (p[1..], u);
      if bits != "" && bits[0] == k {
        CollapseLookup(w, bits[1..]);
        assert p <= bits <==> p[1..] <= bits[1..];
        if p <= bits { assert bits[|p|..] == bits[1..][|p| - 1..]; }
      } else if bits != "" {
        assert !(p <= bits);
        assert Child(t, bits[0]) == Absent;
      }
    } else {
      assert bits[0..] == bits;
    }
  }

  lemma {:induction false} CollapseEntry(t: Trie, q: string)
    requires Binary(q) && Entry(t, q).Some?
    ensures Collapse(t).0 <= q
  {
    var (p, u) := Collapse(t);
    if p != "" {
      var w := if p[0] == '0' then t.zero else t.one;
      assert Collapse(w) == (p[1..], u);
      assert q != "" && q[0] == p[0];
      CollapseEntry(w, q[1..]);
    }
  }

  // ---- The compiled statements look the address up in the trie ----

  function LitFor(d: Option<BusDevice>, lits: map<string, string>): Option<string> {
    if d.Some? then Some(At(lits, d.value.name)) else None
  }

  lemma {:induction false} BuildCondHolds(offset: nat, want: string, v: string)
    requires |v| == 32 && 1 <= |want| && offset + |want| <= 32
    ensures Holds(BuildCond(31 - offset, want), v) <==> want <= v[offset..]
  {
    assert v[offset..][..|want|] == v[offset..offset + |want|];
    if |want| == 1 {
      assert want == [want[0]];
      assert v[offset..offset + 1] == [v[offset]];
    }
  }

  lemma {:induction false} ExecSingle(s: Stmt, v: string)
    requires |v| == 32
    ensures Exec([s], v) == ExecOne(s, v)
  {
    assert [s][1..] == [];
  }

  /** An if with at most one elsif and no else. */
  lemma {:induction false} ExecIfElsif(c: Cond, thn: seq<Stmt>, c2: Cond, thn2: seq<Stmt>, v: string)
    requires |v| == 32
    ensures Exec([If(c, thn, [Elsif(c2, thn2)], [])], v) ==
            if Holds(c, v) then Exec(thn, v) else if Holds(c2, v) then Exec(thn2, v) else None
  {
    var s := If(c, thn, [Elsif(c2, thn2)], []);
    ExecSingle(s, v);
    assert ExecElsifs(s, 1, v) == Exec([], v) == None;
  }

  lemma {:induction false} ExecIfElse(c: Cond, thn: seq<Stmt>, els: seq<Stmt>, v: string)
    requires |v| == 32
    ensures Exec([If(c, thn, [], els)], v) == if Holds(c, v) then Exec(thn, v) else Exec(els, v)
  {
    ExecSingle(If(c, thn, [], els), v);
  }

  lemma {:induction false} ExecLeaf(offset: nat, t: Trie, lits: map<string, string>, v: string)
    requires t.Node? && t.leaf.Some? && |v| == 32
    ensures Exec(BuildIfs(offset, t, lits), v) == LitFor(t.leaf, lits)
  {
    var ss := BuildIfs(offset, t, lits);
    assert ss[1..] == [ss[1]];
    ExecSingle(ss[1], v);
  }

  /** How a lookup at a branching node splits over its two collapsed subtries. */
  lemma {:induction false} LookupBranch(t: Trie, bits: string)
    requires Binary(bits) && bits != "" && t.Node? && t.leaf.None?
    ensures var (lp, lt) := Collapse(Without(t, '1'));
            var (rp, rt) := Collapse(Without(t, '0'));
            Lookup(t, bits) == if bits[0] == '0' then (if lp <= bits then Lookup(lt, bits[|lp|..]) else None)
                               else (if rp <= bits then Lookup(rt, bits[|rp|..]) else None)
  {
    CollapseLookup(Without(t, '1'), bits);
    CollapseLookup(Without(t, '0'), bits);
  }

  lemma {:induction false} ExecTwoWay(offset: nat, lp: string, ls: seq<Stmt>, rp: string, rs: seq<Stmt>, v: string)
    requires IsAddr(v) && 1 <= |lp| && 1 <= |rp| && offset + |lp| <= 32 && offset + |rp| <= 32 && lp[0] == '0' && rp[0] == '1'
    ensures Exec(TwoWay(offset, lp, ls, rp, rs), v) ==
            if lp <= v[offset..] then Exec(ls, v) else if rp <= v[offset..] then Exec(rs, v) else None
  {
    var lc, rc := BuildCond(31 - offset, lp), BuildCond(31 - offset, rp);
    BuildCondHolds(offset, lp, v);
    BuildCondHolds(offset, rp, v);
    if lp == "0" && rp == "1" {
      assert v[offset..][..1] == [v[offset]];
      ExecIfElse(lc, ls, rs, v);
    } else {
      ExecIfElsif(lc, ls, rc, rs, v);
    }
  }

  /** Running the two-way test, given what each arm's statements do. */
  lemma {:induction false} ExecBranch(offset: nat, t: Trie, lits: map<string, string>, v: string, bits: string)
    requires Branching(t) && Alive(t) && t.leaf.None? && IsAddr(v) && offset < 32 && bits == v[offset..]
    requires var (lp, lt) := Collapse(Without(t, '1'));
             1 <= |lp| && offset + |lp| <= 32 && lp[0] == '0' && Branching(lt) && Alive(lt) &&
             Exec(BuildIfs(offset + |lp|, lt, lits), v) == LitFor(Lookup(lt, v[offset + |lp|..]), lits)
    requires var (rp, rt) := Collapse(Without(t, '0'));
             1 <= |rp| && offset + |rp| <= 32 && rp[0] == '1' && Branching(rt) && Alive(rt) &&
             Exec(BuildIfs(offset + |rp|, rt, lits), v) == LitFor(Lookup(rt, v[offset + |rp|..]), lits)
    ensures Exec(BuildIfs(offset, t, lits), v) == LitFor(Lookup(t, bits), lits)
  {
    var (lp, lt) := Collapse(Without(t, '1'));
    var (rp, rt) := Collapse(Without(t, '0'));
    var ls, rs := BuildIfs(offset + |lp|, lt, lits), BuildIfs(offset + |rp|, rt, lits);
    assert BuildIfs(offset, t, lits) == TwoWay(offset, lp, ls, rp, rs);
    ExecTwoWay(offset, lp, ls, rp, rs, v);
    assert v[offset + |lp|..] == bits[|lp|..] && v[offset + |rp|..] == bits[|rp|..];
    LookupBranch(t, bits);
  }

  lemma {:induction false} CollapseSide(t: Trie, k: char)
    requires Branching(t) && Alive(t) && t.leaf.None? && (k == '0' || k == '1')
    ensures var other := if k == '0' then '1' else '0';
            var (p, u) := Collapse(Without(t, other));
            1 <= |p| && p[0] == k && Alive(u) && Branching(u) && |p| + Height(u) <= Height(t) && Size(u) < Size(t)
  {
    var other := if k == '0' then '1' else '0';
    assert Alive(Without(t, other));
    CollapseFacts(Without(t, other));
  }

  /** The generated statements return the literal of the first leaf on the address's path, and nothing if there is none. */
  lemma {:induction false} BuildIfsIsLookup(offset: nat, t: Trie, lits: map<string, string>, v: string)
    requires Branching(t) && Alive(t) && IsAddr(v) && offset + Height(t) <= 32
    ensures Exec(BuildIfs(offset, t, lits), v) == LitFor(Lookup(t, v[offset..]), lits)
    decreases Size(t)
  {
    if t.leaf.Some? {
      ExecLeaf(offset, t, lits, v);
    } else {
      CollapseSide(t, '0');
      CollapseSide(t, '1');
      var (lp, lt) := Collapse(Without(t, '1'));
      var (rp, rt) := Collapse(Without(t, '0'));
      BuildIfsIsLookup(offset + |lp|, lt, lits, v);
      BuildIfsIsLookup(offset + |rp|, rt, lits, v);
      ExecBranch(offset, t, lits, v, v[offset..]);
    }
  }

  // ==== tools/socgen/emit/databus.go: what a compiled decode_address returns, in exact and in simple mode.

  // ---- Any family of prefixes ----

  ghost predicate DistinctNames(devs: seq<BusDevice>) {
    forall i, j :: 0 <= i < j < |devs| ==> devs[i].name != devs[j].name
  }

  /** x and y lie on one path. */
  ghost predicate OnOnePath(x: string, y: string) { x <= y || y <= x }

  ghost predicate PrefixFree(devs: seq<BusDevice>, pre: map<string, string>) {
    forall i, j :: 0 <= i < |devs| && 0 <= j < |devs| && i != j ==> !(At(pre, devs[i].name) <= At(pre, devs[j].name))
  }

  /** The prefixes are bit strings of at most 32 bits, and each agrees with the device region x"a" as far as both go. */
  ghost predicate Regional(devs: seq<BusDevice>, pre: map<string, string>) {
    forall d :: d in devs ==> Binary(At(pre, d.name)) && |At(pre, d.name)| <= 32 && OnOnePath(At(pre, d.name), "1010")
  }

  /** What the compiler needs of the prefixes: none begins another as well. */
  ghost predicate Family(devs: seq<BusDevice>, pre: map<string, string>) { Regional(devs, pre) && PrefixFree(devs, pre) }

  lemma {:induction false} EntrySound(devs: seq<BusDevice>, pre: map<string, string>, q: string)
    requires Binary(q) && forall d :: d in devs ==> Binary(At(pre, d.name))
    ensures var e := Entry(BuildTrie(devs, pre), q);
            e.Some? ==> e.value in devs && At(pre, e.value.name) == q
  {
    if devs == [] {
      assert Entry(EMPTY, q) == None by { if q != "" { assert Child(EMPTY, q[0]) == Absent; } }
    } else {
      var n := |devs| - 1;
      EntrySound(devs[..n], pre, q);
      EntryInsert(BuildTrie(devs[..n], pre), At(pre, devs[n].name), devs[n], q);
    }
  }

  lemma {:induction false} EntryComplete(devs: seq<BusDevice>, pre: map<string, string>, i: nat)
    requires i < |devs| && PrefixFree(devs, pre) && forall d :: d in devs ==> Binary(At(pre, d.name))
    ensures Entry(BuildTrie(devs, pre), At(pre, devs[i].name)) == Some(devs[i])
  {
    var n := |devs| - 1;
    assert Binary(At(pre, devs[n].name)) && Binary(At(pre, devs[i].name));
    EntryInsert(BuildTrie(devs[..n], pre), At(pre, devs[n].name), devs[n], At(pre, devs[i].name));
    if i < n {
      assert !(At(pre, devs[i].name) <= At(pre, devs[n].name));
      EntryComplete(devs[..n], pre, i);
    }
  }

  lemma {:induction false} BuildTrieHeight(devs: seq<BusDevice>, pre: map<string, string>)
    requires forall d :: d in devs ==> |At(pre, d.name)| <= 32
    ensures Height(BuildTrie(devs, pre)) <= 32
  {
    if devs != [] {
      var n := |devs| - 1;
      BuildTrieHeight(devs[..n], pre);
      InsertHeight(BuildTrie(devs[..n], pre), At(pre, devs[n].name), devs[n]);
    }
  }

  lemma {:induction false} BinarySlice(v: string, i: nat, j: nat)
    requires Binary(v) && i <= j <= |v|
    ensures Binary(v[i..j])
  {
  }

  /** The trie built from a family finds the one device whose prefix begins the address. */
  lemma {:induction false} LookupFamily(devs: seq<BusDevice>, pre: map<string, string>, v: string)
    requires Family(devs, pre) && IsAddr(v)
    ensures forall i :: 0 <= i < |devs| && At(pre, devs[i].name) <= v ==> Lookup(BuildTrie(devs, pre), v) == Some(devs[i])
    ensures (forall i :: 0 <= i < |devs| ==> !(At(pre, devs[i].name) <= v)) ==> Lookup(BuildTrie(devs, pre), v) == None
  {
    var t := BuildTrie(devs, pre);
    LookupIsEntry(t, v);
    var r := Lookup(t, v);
    if r.Some? {
      var k :| 0 <= k <= |v| && Entry(t, v[..k]) == r;
      BinarySlice(v, 0, k);
      EntrySound(devs, pre, v[..k]);
      assert At(pre, r.value.name) <= v;
    }
    forall i | 0 <= i < |devs| && At(pre, devs[i].name) <= v
      ensures r == Some(devs[i])
    {
      var p := At(pre, devs[i].name);
      EntryComplete(devs, pre, i);
      assert v[..|p|] == p;
      assert Entry(t, v[..|p|]).Some?;
      var k :| 0 <= k <= |v| && Entry(t, v[..k]) == r;
      BinarySlice(v, 0, k);
      EntrySound(devs, pre, v[..k]);
      var j :| 0 <= j < |devs| && devs[j] == r.value;
      assert v[..k] <= p || p <= v[..k];
    }
  }

  lemma {:induction false} ExecConcat(a: seq<Stmt>, b: seq<Stmt>, v: string)
    requires |v| == 32
    ensures Exec(a + b, v) == if Exec(a, v).Some? then Exec(a, v) else Exec(b, v)
  {
    if a == [] {
      assert a + b == b;
    } else {
      assert (a + b)[1..] == a[1..] + b;
      ExecConcat(a[1..], b, v);
    }
  }

  /** The prefix shared by all devices agrees with x"a" as well. */
  lemma {:induction false} CommonPrefix(devs: seq<BusDevice>, pre: map<string, string>)
    requires devs != [] && Regional(devs, pre)
    ensures var p := Collapse(BuildTrie(devs, pre)).0;
            |p| <= 32 && OnOnePath(p, "1010")
  {
    var n := |devs| - 1;
    var q := At(pre, devs[n].name);
    assert devs[n] in devs;
    EntryInsert(BuildTrie(devs[..n], pre), q, devs[n], q);
    CollapseEntry(BuildTrie(devs, pre), q);
  }

  /** The statements before the final return: the trie's tests, wrapped in one more test when the devices share more than the top digit. */
  lemma {:induction false} DecodeBodyIsLookup(devs: seq<BusDevice>, pre: map<string, string>, lits: map<string, string>, v: string)
    requires devs != [] && Regional(devs, pre) && IsAddr(v) && v[..4] == "1010"
    ensures Exec(DecodeBody(devs, pre, lits), v) ==
            var r := Lookup(BuildTrie(devs, pre), v); Some(At(lits, if r.Some? then r.value.name else "none"))
  {
    var none := [Return(At(lits, "none"))];
    ExecSingle(none[0], v);
    var t := BuildTrie(devs, pre);
    var (p, inner) := Collapse(t);
    BuildTrieAlive(devs, pre);
    BuildTrieHeight(devs, pre);
    CollapseFacts(t);
    CommonPrefix(devs, pre);
    CollapseLookup(t, v);
    var ifs := BuildIfs(|p|, inner, lits);
    BuildIfsIsLookup(|p|, inner, lits, v);
    if |p| <= 4 {
      assert p <= v[..4] <= v;
      ExecConcat(ifs, none, v);
    } else {
      WrapperTest(p, v);
      BuildCondHolds(4, p[4..], v);
      ExecIfElse(BuildCond(27, p[4..]), ifs, [], v);
      ExecConcat([If(BuildCond(27, p[4..]), ifs, [], [])], none, v);
    }
  }

  /** decode_address returns the literal of the device whose prefix begins the address, and "none"'s literal otherwise. */
  lemma {:induction false} DecodeBodyCorrect(devs: seq<BusDevice>, pre: map<string, string>, lits: map<string, string>, v: string)
    requires Family(devs, pre) && IsAddr(v) && v[..4] == "1010"
    ensures forall i :: 0 <= i < |devs| && At(pre, devs[i].name) <= v ==>
              Exec(DecodeBody(devs, pre, lits), v) == Some(At(lits, devs[i].name))
    ensures (forall i :: 0 <= i < |devs| ==> !(At(pre, devs[i].name) <= v)) ==>
              Exec(DecodeBody(devs, pre, lits), v) == Some(At(lits, "none"))
  {
    if devs == [] {
      ExecSingle(Return(At(lits, "none")), v);
    } else {
      LookupFamily(devs, pre, v);
      DecodeBodyIsLookup(devs, pre, lits, v);
    }
  }

  lemma {:induction false} WrapperTest(p: string, v: string)
    requires |p| > 4 && "1010" <= p && |v| == 32 && v[..4] == "1010"
    ensures p[4..] <= v[4..] <==> p <= v
  {
    assert p == p[..4] + p[4..] && v == v[..4] + v[4..];
  }

  // ---- Exact prefixes ----

  /** devicePrefix: the 32-bit base without its low leftBit+1 bits. Outside this range the slice expression of the source panics. */
  function DevicePrefix(d: BusDevice): (p: string)
    requires -1 <= d.leftBit <= 31
    ensures |p| == 31 - d.leftBit && Binary(p)
  {
    Bits(d.base, 32)[..32 - d.leftBit - 1]
  }

  ghost predicate InWidth(devs: seq<BusDevice>) { forall d :: d in devs ==> -1 <= d.leftBit <= 31 }

  ghost function ExactPrefixes(devs: seq<BusDevice>): map<string, string>
    requires InWidth(devs)
  {
    if devs == [] then map[]
    else ExactPrefixes(devs[..|devs| - 1])[devs[|devs| - 1].name := DevicePrefix(devs[|devs| - 1])]
  }

  lemma {:induction false} ExactPrefixesAt(devs: seq<BusDevice>, i: nat)
    requires InWidth(devs) && DistinctNames(devs) && i < |devs|
    ensures At(ExactPrefixes(devs), devs[i].name) == DevicePrefix(devs[i])
  {
    var n := |devs| - 1;
    if i < n { ExactPrefixesAt(devs[..n], i); }
  }

  // ---- Simple prefixes ----

  /** The leaves of a trie, '0' before '1', each with its path. */
  function Leaves(t: Trie, path: string): seq<(BusDevice, string)> {
    if t.Absent? then []
    else if t.leaf.Some? then [(t.leaf.value, path)]
    else Leaves(t.zero, path + "0") + Leaves(t.one, path + "1")
  }

  /** trimSuffix as a list: full is the path down to the last branch, prefix what was walked since. */
  function Trims(t: Trie, full: string, prefix: string): seq<(BusDevice, string)> {
    if t.Absent? then []
    else if t.leaf.Some? then [(t.leaf.value, full)]
    else if t.zero.Node? && t.one.Absent? then Trims(t.zero, full, prefix + "0")
    else if t.one.Node? && t.zero.Absent? then Trims(t.one, full, prefix + "1")
    else Trims(t.zero, full + prefix + "0", "") + Trims(t.one, full + prefix + "1", "")
  }

  function Put(out: map<string, string>, ps: seq<(BusDevice, string)>): map<string, string>
    decreases ps
  {
    if ps == [] then out else Put(out[ps[0].0.name := ps[0].1], ps[1..])
  }

  lemma {:induction false} PutConcat(out: map<string, string>, a: seq<(BusDevice, string)>, b: seq<(BusDevice, string)>)
    ensures Put(out, a + b) == Put(Put(out, a), b)
    decreases a
  {
    if a == [] {
      assert a + b == b;
    } else {
      assert (a + b)[1..] == a[1..] + b;
      PutConcat(out[a[0].0.name := a[0].1], a[1..], b);
    }
  }

  lemma {:induction false} PutKeeps(out: map<string, string>, ps: seq<(BusDevice, string)>, name: string)
    requires forall i :: 0 <= i < |ps| ==> ps[i].0.name != name
    ensures name in Put(out, ps) <==> name in out
    ensures name in out ==> Put(out, ps)[name] == out[name]
    decreases ps
  {
    if ps != [] { PutKeeps(out[ps[0].0.name := ps[0].1], ps[1..], name); }
  }

  lemma {:induction false} PutAt(out: map<string, string>, ps: seq<(BusDevice, string)>, i: nat)
    requires i < |ps| && forall j, k :: 0 <= j < k < |ps| ==> ps[j].0.name != ps[k].0.name
    ensures At(Put(out, ps), ps[i].0.name) == ps[i].1
    decreases ps
  {
    if i == 0 {
      PutKeeps(out[ps[0].0.name := ps[0].1], ps[1..], ps[0].0.name);
    } else {
      PutAt(out[ps[0].0.name := ps[0].1], ps[1..], i - 1);
    }
  }

  /** Trimming lists the same devices in the same order. */
  lemma {:induction false} TrimsSameDevices(t: Trie, full: string, prefix: string, path: string)
    ensures |Trims(t, full, prefix)| == |Leaves(t, path)|
    ensures forall i :: 0 <= i < |Trims(t, full, prefix)| ==> Trims(t, full, prefix)[i].0 == Leaves(t, path)[i].0
  {
    if t.Node? && t.leaf.None? {
      if t.zero.Node? && t.one.Absent? {
        TrimsSameDevices(t.zero, full, prefix + "0", path + "0");
      } else if t.one.Node? && t.zero.Absent? {
        TrimsSameDevices(t.one, full, prefix + "1", path + "1");
      } else {
        TrimsSameDevices(t.zero, full + prefix + "0", "", path + "0");
        TrimsSameDevices(t.one, full + prefix + "1", "", path + "1");
      }
    }
  }

  lemma {:induction false} LeavesBelow(t: Trie, path: string, i: nat)
    requires i < |Leaves(t, path)|
    ensures path <= Leaves(t, path)[i].1
  {
    if t.leaf.None? {
      var n := |Leaves(t.zero, path + "0")|;
      if i < n { LeavesBelow(t.zero, path + "0", i); } else { LeavesBelow(t.one, path + "1", i - n); }
    }
  }

  /** A trimmed prefix begins its leaf's path, and reaches at least down to the last branch above t. */
  lemma {:induction false} TrimBegins(t: Trie, full: string, prefix: string, i: nat)
    requires i < |Trims(t, full, prefix)|
    ensures |Trims(t, full, prefix)| == |Leaves(t, full + prefix)|
    ensures full <= Trims(t, full, prefix)[i].1 <= Leaves(t, full + prefix)[i].1
  {
    var p := full + prefix;
    TrimsSameDevices(t, full, prefix, p);
    if t.leaf.None? {
      assert p + "0" == full + (prefix + "0") && p + "1" == full + (prefix + "1");
      assert (p + "0") + "" == p + "0" && (p + "1") + "" == p + "1";
      TrimsSameDevices(t.zero, p + "0", "", p + "0");
      var n := |Leaves(t.zero, p + "0")|;
      if t.zero.Node? && t.one.Absent? {
        TrimBegins(t.zero, full, prefix + "0", i);
      } else if t.one.Node? && t.zero.Absent? {
        TrimBegins(t.one, full, prefix + "1", i);
      } else if i < n {
        TrimBegins(t.zero, p + "0", "", i);
      } else {
        TrimBegins(t.one, p + "1", "", i - n);
      }
    }
  }

  /** No trimmed prefix begins another device's whole path. */
  lemma {:induction false} TrimsSeparate(t: Trie, full: string, prefix: string, i: nat, j: nat)
    requires i < |Trims(t, full, prefix)| && j < |Leaves(t, full + prefix)| && i != j
    ensures !(Trims(t, full, prefix)[i].1 <= Leaves(t, full + prefix)[j].1)
  {
    var p := full + prefix;
    TrimsSameDevices(t, full, prefix, p);
    assert p + "0" == full + (prefix + "0") && p + "1" == full + (prefix + "1");
    if t.zero.Node? && t.one.Absent? {
      TrimsSeparate(t.zero, full, prefix + "0", i, j);
    } else if t.one.Node? && t.zero.Absent? {
      TrimsSeparate(t.one, full, prefix + "1", i, j);
    } else {
      TrimsSameDevices(t.zero, p + "0", "", p + "0");
      assert (p + "0") + "" == p + "0" && (p + "1") + "" == p + "1";
      var n := |Leaves(t.zero, p + "0")|;
      if i < n { TrimBegins(t.zero, p + "0", "", i); } else { TrimBegins(t.one, p + "1", "", i - n); }
      if j < n { LeavesBelow(t.zero, p + "0", j); } else { LeavesBelow(t.one, p + "1", j - n); }
      if i < n && j < n { TrimsSeparate(t.zero, p + "0", "", i, j); }
      if i >= n && j >= n { TrimsSeparate(t.one, p + "1", "", i - n, j - n); }
      assert (p + "0")[|p|] == '0' && (p + "1")[|p|] == '1';
    }
  }

  lemma {:induction false} AliveHasLeaf(t: Trie, path: string)
    requires Alive(t)
    ensures |Leaves(t, path)| >= 1
  {
    if t.leaf.None? {
      if t.zero.Node? { AliveHasLeaf(t.zero, path + "0"); } else { AliveHasLeaf(t.one, path + "1"); }
    }
  }

  lemma {:induction false} SingleLeafTrim(t: Trie, full: string, prefix: string)
    requires Alive(t) && |Leaves(t, full + prefix)| == 1
    ensures |Trims(t, full, prefix)| == 1 && Trims(t, full, prefix)[0].1 == full
  {
    TrimsSameDevices(t, full, prefix, full + prefix);
    if t.leaf.None? {
      var p := full + prefix;
      assert p + "0" == full + (prefix + "0") && p + "1" == full + (prefix + "1");
      if t.zero.Node? { AliveHasLeaf(t.zero, p + "0"); }
      if t.one.Node? { AliveHasLeaf(t.one, p + "1"); }
      if t.zero.Node? { SingleLeafTrim(t.zero, full, prefix + "0"); } else { SingleLeafTrim(t.one, full, prefix + "1"); }
    }
  }

  /** With two or more leaves, a trimmed prefix without its last bit begins some other device's path. */
  lemma {:induction false} TrimsMinimal(t: Trie, full: string, prefix: string, i: nat) returns (j: nat)
    requires Alive(t) && i < |Trims(t, full, prefix)| && |Leaves(t, full + prefix)| >= 2
    ensures j < |Leaves(t, full + prefix)| && j != i
    ensures var s := Trims(t, full, prefix)[i].1;
            |s| > |full| && s[..|s| - 1] <= Leaves(t, full + prefix)[j].1
  {
    var p := full + prefix;
    assert p + "0" == full + (prefix + "0") && p + "1" == full + (prefix + "1");
    if t.zero.Node? && t.one.Absent? {
      j := TrimsMinimal(t.zero, full, prefix + "0", i);
    } else if t.one.Node? && t.zero.Absent? {
      j := TrimsMinimal(t.one, full, prefix + "1", i);
    } else {
      TrimsSameDevices(t.zero, p + "0", "", p + "0");
      TrimsSameDevices(t.one, p + "1", "", p + "1");
      assert (p + "0") + "" == p + "0" && (p + "1") + "" == p + "1";
      if i < |Trims(t.zero, p + "0", "")| { TrimBegins(t.zero, p + "0", "", i); } else { TrimBegins(t.one, p + "1", "", i - |Trims(t.zero, p + "0", "")|); }
      AliveHasLeaf(t.zero, p + "0");
      AliveHasLeaf(t.one, p + "1");
      LeavesBelow(t.zero, p + "0", 0);
      LeavesBelow(t.one, p + "1", 0);
      var n := |Leaves(t.zero, p + "0")|;
      if i < n {
        if n == 1 {
          SingleLeafTrim(t.zero, p + "0", "");
          assert (p + "0")[..|p|] == p;
          j := n;
        } else {
          j := TrimsMinimal(t.zero, p + "0", "", i);
        }
      } else {
        if |Leaves(t.one, p + "1")| == 1 {
          SingleLeafTrim(t.one, p + "1", "");
          assert (p + "1")[..|p|] == p;
          j := 0;
        } else {
          var k := TrimsMinimal(t.one, p + "1", "", i - n);
          j := n + k;
        }
      }
    }
  }

  /** A leaf of the list is an entry of the trie, and an entry with none above it is a leaf of the list. */
  lemma {:induction false} LeavesAreEntries(t: Trie, path: string, i: nat)
    requires i < |Leaves(t, path)|
    ensures var (d, q) := Leaves(t, path)[i];
            path <= q && Binary(q[|path|..]) && Entry(t, q[|path|..]) == Some(d)
  {
    var (d, q) := Leaves(t, path)[i];
    if t.leaf.Some? {
      assert q[|path|..] == "";
    } else {
      var n := |Leaves(t.zero, path + "0")|;
      if i < n { LeavesAreEntries(t.zero, path + "0", i); } else { LeavesAreEntries(t.one, path + "1", i - n); }
      var k := if i < n then "0" else "1";
      assert path + k <= q;
      assert q[|path|] == k[0];
      assert q[|path|..][1..] == q[|path + k|..];
    }
  }

  lemma {:induction false} EntriesAreLeaves(t: Trie, path: string, q: string) returns (i: nat)
    requires Binary(q) && Entry(t, q).Some?
    requires forall k :: 0 <= k < |q| ==> Entry(t, q[..k]).None?
    ensures i < |Leaves(t, path)| && Leaves(t, path)[i] == (Entry(t, q).value, path + q)
  {
    if q == "" {
      i := 0;
      assert path + q == path;
    } else {
      assert q[..0] == "";
      var u := Child(t, q[0]);
      forall k | 0 <= k < |q[1..]|
        ensures Entry(u, q[1..][..k]).None?
      {
        assert q[..k + 1][1..] == q[1..][..k];
        assert Entry(t, q[..k + 1]).None?;
      }
      var j := EntriesAreLeaves(u, path + [q[0]], q[1..]);
      assert path + [q[0]] + q[1..] == path + q;
      i := if q[0] == '0' then j else |Leaves(t.zero, path + "0")| + j;
    }
  }

  ghost function SimplePrefixes(devs: seq<BusDevice>): map<string, string>
    requires InWidth(devs)
  {
    Put(map[], Trims(BuildTrie(devs, ExactPrefixes(devs)), "", ""))
  }

  /** In the trie of a prefix-free family every device is exactly one leaf, under its own prefix. */
  lemma {:induction false} DeviceLeaf(devs: seq<BusDevice>, pre: map<string, string>, i: nat) returns (k: nat)
    requires i < |devs| && PrefixFree(devs, pre) && forall d :: d in devs ==> Binary(At(pre, d.name))
    ensures var ls := Leaves(BuildTrie(devs, pre), "");
            k < |ls| && ls[k] == (devs[i], At(pre, devs[i].name))
  {
    var t, q := BuildTrie(devs, pre), At(pre, devs[i].name);
    EntryComplete(devs, pre, i);
    assert Binary(q) by { assert devs[i] in devs; }
    forall m | 0 <= m < |q|
      ensures Entry(t, q[..m]).None?
    {
      EntrySound(devs, pre, q[..m]);
    }
    k := EntriesAreLeaves(t, "", q);
    assert "" + q == q;
  }

  lemma {:induction false} LeafDevice(devs: seq<BusDevice>, pre: map<string, string>, k: nat) returns (i: nat)
    requires k < |Leaves(BuildTrie(devs, pre), "")| && forall d :: d in devs ==> Binary(At(pre, d.name))
    ensures i < |devs| && Leaves(BuildTrie(devs, pre), "")[k] == (devs[i], At(pre, devs[i].name))
  {
    var t := BuildTrie(devs, pre);
    LeavesAreEntries(t, "", k);
    var (d, q) := Leaves(t, "")[k];
    assert q[0..] == q;
    EntrySound(devs, pre, q);
    i :| 0 <= i < |devs| && devs[i] == d;
  }

  /** Two places of the leaf list never hold one device. */
  lemma {:induction false} LeafNamesDistinct(devs: seq<BusDevice>, pre: map<string, string>, j: nat, k: nat)
    requires DistinctNames(devs) && PrefixFree(devs, pre) && forall d :: d in devs ==> Binary(At(pre, d.name))
    requires var ls := Leaves(BuildTrie(devs, pre), ""); j < k < |ls|
    ensures var ls := Leaves(BuildTrie(devs, pre), ""); ls[j].0.name != ls[k].0.name
  {
    var t := BuildTrie(devs, pre);
    var a := LeafDevice(devs, pre, j);
    var b := LeafDevice(devs, pre, k);
    TrimsSameDevices(t, "", "", "");
    assert "" + "" == "";
    TrimsSeparate(t, "", "", j, k);
    TrimBegins(t, "", "", j);
  }

  /** A device's simple prefix sits at the same place of the trim list as its leaf in the leaf list. */
  lemma {:induction false} SimplePrefixAt(devs: seq<BusDevice>, i: nat) returns (k: nat)
    requires InWidth(devs) && DistinctNames(devs) && PrefixFree(devs, ExactPrefixes(devs)) && i < |devs|
    ensures var t := BuildTrie(devs, ExactPrefixes(devs));
            k < |Trims(t, "", "")| == |Leaves(t, "")| &&
            Trims(t, "", "")[k] == (devs[i], At(SimplePrefixes(devs), devs[i].name)) &&
            Leaves(t, "")[k] == (devs[i], DevicePrefix(devs[i]))
  {
    var pre := ExactPrefixes(devs);
    var t := BuildTrie(devs, pre);
    ExactBinary(devs);
    ExactPrefixesAt(devs, i);
    k := DeviceLeaf(devs, pre, i);
    TrimsSameDevices(t, "", "", "");
    assert "" + "" == "";
    var ts := Trims(t, "", "");
    forall a, b | 0 <= a < b < |ts| ensures ts[a].0.name != ts[b].0.name { LeafNamesDistinct(devs, pre, a, b); }
    PutAt(map[], ts, k);
  }

  lemma {:induction false} ExactBinary(devs: seq<BusDevice>)
    requires InWidth(devs) && DistinctNames(devs)
    ensures forall d :: d in devs ==> Binary(At(ExactPrefixes(devs), d.name))
  {
    forall d | d in devs ensures Binary(At(ExactPrefixes(devs), d.name)) {
      var i :| 0 <= i < |devs| && devs[i] == d;
      ExactPrefixesAt(devs, i);
    }
  }

  /** Simple mode shortens each exact prefix, and never so far that it begins another device's exact prefix. */
  lemma {:induction false} SimplePrefixesSeparate(devs: seq<BusDevice>, i: nat, j: nat)
    requires InWidth(devs) && DistinctNames(devs) && PrefixFree(devs, ExactPrefixes(devs))
    requires i < |devs| && j < |devs| && i != j
    ensures At(SimplePrefixes(devs), devs[i].name) <= DevicePrefix(devs[i])
    ensures !(At(SimplePrefixes(devs), devs[i].name) <= DevicePrefix(devs[j]))
    ensures !(At(SimplePrefixes(devs), devs[i].name) <= At(SimplePrefixes(devs), devs[j].name))
  {
    var a := SimplePrefixAt(devs, i);
    var b := SimplePrefixAt(devs, j);
    assert a != b by { assert devs[i] != devs[j]; }
    TrimmedPair(BuildTrie(devs, ExactPrefixes(devs)), a, b);
  }

  lemma {:induction false} TrimmedPair(t: Trie, a: nat, b: nat)
    requires a < |Trims(t, "", "")| == |Leaves(t, "")| && b < |Trims(t, "", "")| && a != b
    ensures var ts, ls := Trims(t, "", ""), Leaves(t, "");
            ts[a].1 <= ls[a].1 && !(ts[a].1 <= ls[b].1) && !(ts[a].1 <= ts[b].1)
  {
    assert "" + "" == "";
    TrimBegins(t, "", "", a);
    TrimBegins(t, "", "", b);
    TrimsSeparate(t, "", "", a, b);
  }

  /** With two or more devices each simple prefix is as short as it can be: one bit less and it begins another exact prefix. */
  lemma {:induction false} SimplePrefixesMinimal(devs: seq<BusDevice>, i: nat) returns (j: nat)
    requires InWidth(devs) && DistinctNames(devs) && PrefixFree(devs, ExactPrefixes(devs))
    requires i < |devs| && |devs| >= 2
    ensures j < |devs| && j != i
    ensures var s := At(SimplePrefixes(devs), devs[i].name);
            |s| > 0 && s[..|s| - 1] <= DevicePrefix(devs[j])
  {
    var pre := ExactPrefixes(devs);
    var t := BuildTrie(devs, pre);
    var a := SimplePrefixAt(devs, i);
    var b := SimplePrefixAt(devs, if i == 0 then 1 else 0);
    BuildTrieAlive(devs, pre);
    assert "" + "" == "";
    assert a != b;
    var k := TrimsMinimal(t, "", "", a);
    ExactBinary(devs);
    j := LeafDevice(devs, pre, k);
    ExactPrefixesAt(devs, j);
    if j == i { LeafNamesDistinct(devs, pre, if a < k then a else k, if a < k then k else a); }
  }

  /** A single device keeps no bit at all in simple mode. */
  lemma {:induction false} SimplePrefixSingle(d: BusDevice)
    requires -1 <= d.leftBit <= 31
    ensures At(SimplePrefixes([d]), d.name) == ""
  {
    var devs := [d];
    var t := BuildTrie(devs, ExactPrefixes(devs));
    var a := SimplePrefixAt(devs, 0);
    BuildTrieAlive(devs, ExactPrefixes(devs));
    ExactBinary(devs);
    assert "" + "" == "";
    if |Leaves(t, "")| >= 2 {
      LeafNamesDistinct(devs, ExactPrefixes(devs), 0, 1);
      var x := LeafDevice(devs, ExactPrefixes(devs), 0);
      var y := LeafDevice(devs, ExactPrefixes(devs), 1);
    }
    SingleLeafTrim(t, "", "");
  }
}
