/** The collapsed print of a module tree (_format_module_tree in vllm/model_inspection.py).

    The printed lines are kept as a tree: per module its label, its groups of numbered children, and
    its named children.  Indentation and punctuation are not part of the model.
 */
module ModuleFormat {
  import opened IndexRanges
  import opened ModuleTree
  import opened Prelude
  import Sorting

  datatype Printed = Printed(info: string, groups: seq<Group>, named: seq<Entry>)

  /** `(ranges): count x body` */
  datatype Group = Group(ranges: seq<Range>, count: nat, body: Printed)

  datatype Entry = Entry(name: Name, body: Printed)

  /** A module tree with the order of children forgotten. */
  datatype Tree = Tree(info: string, kids: map<Name, Tree>)

  // ----- What a module is, as a tree

  function TreeOf(m: Module): Tree { Tree(m.info, KidsOf(m.children)) }

  function KidsOf(cs: seq<Child>): map<Name, Tree> {
    if cs == [] then map[] else KidsOf(cs[..|cs| - 1])[cs[|cs| - 1].name := ChildTree(cs[|cs| - 1])]
  }

  function ChildTree(c: Child): Tree { TreeOf(c.sub) }

  /** Sibling names differ, all the way down. */
  ghost predicate WellNamed(m: Module) {
    && Consistent(m.children)
    && Distinct(m.children)
    && forall i | 0 <= i < |m.children| :: ChildWellNamed(m.children[i])
  }

  ghost predicate ChildWellNamed(c: Child) { WellNamed(c.sub) }

  ghost predicate Consistent(cs: seq<Child>) {
    forall c, d | c in cs && d in cs :: c.name == d.name ==> c == d
  }

  // ----- What a print stands for: every index of every group, and every name, with its subtree

  function Unfold(p: Printed): Tree { Tree(p.info, GroupKids(p.groups) + NamedKids(p.named)) }

  function GroupKids(gs: seq<Group>): map<Name, Tree> {
    if gs == [] then map[] else GroupKids(gs[..|gs| - 1]) + OneGroup(gs[|gs| - 1])
  }

  function OneGroup(g: Group): map<Name, Tree> {
    var t := Unfold(g.body);
    map i | i in IndexSet(g.ranges) :: Num(i) := t
  }

  function NamedKids(es: seq<Entry>): map<Name, Tree> {
    if es == [] then map[] else NamedKids(es[..|es| - 1]) + OneEntry(es[|es| - 1])
  }

  function OneEntry(e: Entry): map<Name, Tree> { map[e.name := Unfold(e.body)] }

  function IndexSet(rs: seq<Range>): set<int> {
    if Proper(rs) then set i | i in ExpandAll(rs) else {}
  }

  // ----- Maps of children

  /** The map has exactly these children. */
  ghost predicate Holds(kids: map<Name, Tree>, cs: seq<Child>) {
    && (forall n | n in kids :: HasName(cs, n))
    && (forall c | c in cs :: c.name in kids && kids[c.name] == TreeOf(c.sub))
  }

  ghost predicate HasName(cs: seq<Child>, n: Name) { exists i | 0 <= i < |cs| :: cs[i].name == n }

  lemma HoldsUnion(a: map<Name, Tree>, cs: seq<Child>, b: map<Name, Tree>, ds: seq<Child>)
    requires Holds(a, cs) && Holds(b, ds) && Consistent(cs + ds)
    ensures Holds(a + b, cs + ds)
  {
    var all := cs + ds;
    forall n | n in a + b ensures HasName(all, n) {
      if n in b {
        var i :| 0 <= i < |ds| && ds[i].name == n;
        assert all[|cs| + i].name == n;
      } else {
        var i :| 0 <= i < |cs| && cs[i].name == n;
        assert all[i].name == n;
      }
    }
    forall c | c in all ensures c.name in a + b && (a + b)[c.name] == TreeOf(c.sub) {
      if c.name in b {
        var i :| 0 <= i < |ds| && ds[i].name == c.name;
        assert ds[i] in all;
        assert ds[i] in ds;
      }
    }
  }

  lemma HoldsDetermines(a: map<Name, Tree>, cs: seq<Child>, b: map<Name, Tree>, ds: seq<Child>)
    requires Holds(a, cs) && Holds(b, ds) && forall c :: c in cs <==> c in ds
    ensures a == b
  {
    forall n | n in a ensures n in b && a[n] == b[n] {
      var i :| 0 <= i < |cs| && cs[i].name == n;
      assert cs[i] in cs && cs[i] in ds;
    }
    forall n | n in b ensures n in a {
      var i :| 0 <= i < |ds| && ds[i].name == n;
      assert ds[i] in ds && ds[i] in cs;
    }
  }

  lemma {:induction false} KidsHold(cs: seq<Child>)
    requires Consistent(cs)
    ensures Holds(KidsOf(cs), cs)
  {
    if cs != [] {
      var front, c := cs[..|cs| - 1], cs[|cs| - 1];
      assert cs == front + [c];
      ConsistentPart(front, [c]);
      KidsHold(front);
      OneHolds(c);
      HoldsUnion(KidsOf(front), front, map[c.name := TreeOf(c.sub)], [c]);
      KidsStep(front, c);
    }
  }

  lemma KidsStep(front: seq<Child>, c: Child)
    ensures KidsOf(front + [c]) == KidsOf(front) + map[c.name := TreeOf(c.sub)]
  {
    assert (front + [c])[..|front|] == front;
    assert ChildTree(c) == TreeOf(c.sub);
  }

  lemma OneHolds(c: Child)
    ensures Holds(map[c.name := TreeOf(c.sub)], [c])
  {
    assert [c][0].name == c.name;
  }

  lemma ConsistentPart(cs: seq<Child>, ds: seq<Child>)
    requires Consistent(cs + ds)
    ensures Consistent(cs) && Consistent(ds)
  {
    forall c, d | c in cs && d in cs ensures c.name == d.name ==> c == d { assert c in cs + ds && d in cs + ds; }
    forall c, d | c in ds && d in ds ensures c.name == d.name ==> c == d { assert c in cs + ds && d in cs + ds; }
  }

  // ----- Grouping by signature

  /** Members share one signature. */
  ghost predicate Alike(g: seq<Child>) {
    g != [] && forall c | c in g :: Signature(c.sub) == Signature(g[0].sub)
  }

  ghost predicate AllAlike(gs: seq<seq<Child>>) { forall k | 0 <= k < |gs| :: Alike(gs[k]) }

  /** No two groups share a signature. */
  ghost predicate Unlike(gs: seq<seq<Child>>)
    requires AllAlike(gs)
  {
    forall j, k | 0 <= j < k < |gs| :: Signature(gs[j][0].sub) != Signature(gs[k][0].sub)
  }

  ghost function Flatten(gs: seq<seq<Child>>): seq<Child> {
    if gs == [] then [] else Flatten(gs[..|gs| - 1]) + gs[|gs| - 1]
  }

  lemma {:induction false} FlattenAdd(gs: seq<seq<Child>>, k: nat, c: Child)
    requires k < |gs|
    ensures multiset(Flatten(gs[k := gs[k] + [c]])) == multiset(Flatten(gs)) + multiset{c}
  {
    var n := |gs| - 1;
    var gs' := gs[k := gs[k] + [c]];
    var front, front' := Flatten(gs[..n]), Flatten(gs'[..n]);
    assert Flatten(gs) == front + gs[n] && Flatten(gs') == front' + gs'[n];
    if k < n {
      assert gs'[..n] == gs[..n][k := gs[k] + [c]] && gs'[n] == gs[n];
      FlattenAdd(gs[..n], k, c);
      assert multiset(front' + gs[n]) == multiset(front) + multiset{c} + multiset(gs[n]);
    } else {
      assert gs'[..n] == gs[..n] && gs'[n] == gs[n] + [c];
    }
  }

  method FindGroup(gs: seq<seq<Child>>, signature: seq<Line>) returns (k: nat)
    requires AllAlike(gs)
    ensures k <= |gs| && (k < |gs| ==> Signature(gs[k][0].sub) == signature)
    ensures k == |gs| ==> forall j | 0 <= j < |gs| :: Signature(gs[j][0].sub) != signature
  {
    k := 0;
    while k < |gs| && Signature(gs[k][0].sub) != signature
      invariant 0 <= k <= |gs| && forall j | 0 <= j < k :: Signature(gs[j][0].sub) != signature
    {
      k := k + 1;
    }
  }

  /** `part` is `all` with some left out, in the same order. */
  ghost predicate Follows(part: seq<Child>, all: seq<Child>)
    decreases |all|
  {
    part == []
    || (all != []
        && (|| Follows(part, all[..|all| - 1])
            || (part[|part| - 1] == all[|all| - 1] && Follows(part[..|part| - 1], all[..|all| - 1]))))
  }

  lemma FollowsOn(part: seq<Child>, all: seq<Child>, c: Child)
    requires Follows(part, all)
    ensures Follows(part, all + [c]) && Follows(part + [c], all + [c])
  {
    assert (all + [c])[..|all|] == all && (part + [c])[..|part|] == part;
  }

  lemma {:induction false} FollowsThrough(a: seq<Child>, b: seq<Child>, c: seq<Child>)
    requires Follows(a, b) && Follows(b, c)
    ensures Follows(a, c)
    decreases |c|
  {
    if a != [] {
      var c' := c[..|c| - 1];
      if Follows(b, c') {
        FollowsThrough(a, b, c');
      } else if Follows(a, b[..|b| - 1]) {
        FollowsThrough(a, b[..|b| - 1], c');
      } else {
        FollowsThrough(a[..|a| - 1], b[..|b| - 1], c');
      }
    }
  }

  ghost predicate AllFollow(gs: seq<seq<Child>>, cs: seq<Child>) {
    forall k | 0 <= k < |gs| :: Follows(gs[k], cs)
  }

  lemma AllFollowOn(gs: seq<seq<Child>>, cs: seq<Child>, c: Child)
    requires AllFollow(gs, cs)
    ensures AllFollow(gs, cs + [c]) && AllFollow(gs + [[c]], cs + [c])
    ensures forall k | 0 <= k < |gs| :: AllFollow(gs[k := gs[k] + [c]], cs + [c])
  {
    forall k | 0 <= k < |gs| ensures Follows(gs[k], cs + [c]) && Follows(gs[k] + [c], cs + [c]) {
      FollowsOn(gs[k], cs, c);
    }
    FollowsOn([], cs, c);
    assert [] + [c] == [c];
  }

  /** One more child, in the group of its signature or in a new one. */
  method AddToGroups(gs: seq<seq<Child>>, c: Child, ghost before: seq<Child>) returns (gs': seq<seq<Child>>)
    requires AllAlike(gs) && Unlike(gs) && AllFollow(gs, before)
    ensures AllAlike(gs') && Unlike(gs') && multiset(Flatten(gs')) == multiset(Flatten(gs)) + multiset{c}
    ensures AllFollow(gs', before + [c])
  {
    AllFollowOn(gs, before, c);
    var k := FindGroup(gs, Signature(c.sub));
    if k < |gs| {
      FlattenAdd(gs, k, c);
      JoinGroup(gs, k, c);
      gs' := gs[k := gs[k] + [c]];
    } else {
      NewGroup(gs, c);
      gs' := gs + [[c]];
    }
  }

  /** The grouping dictionary, as the list of its values in insertion order. */
  method GroupBySignature(cs: seq<Child>) returns (gs: seq<seq<Child>>)
    ensures AllAlike(gs) && Unlike(gs) && multiset(Flatten(gs)) == multiset(cs) && AllFollow(gs, cs)
  {
    gs := [];
    for i := 0 to |cs|
      invariant AllAlike(gs) && Unlike(gs) && multiset(Flatten(gs)) == multiset(cs[..i]) && AllFollow(gs, cs[..i])
    {
      assert cs[..i + 1] == cs[..i] + [cs[i]];
      gs := AddToGroups(gs, cs[i], cs[..i]);
    }
    assert cs[..|cs|] == cs;
  }

  lemma JoinGroup(gs: seq<seq<Child>>, k: nat, c: Child)
    requires AllAlike(gs) && Unlike(gs) && k < |gs| && Signature(gs[k][0].sub) == Signature(c.sub)
    ensures AllAlike(gs[k := gs[k] + [c]]) && Unlike(gs[k := gs[k] + [c]])
  {
    var gs' := gs[k := gs[k] + [c]];
    assert Alike(gs[k]);
    assert Alike(gs'[k]);
    assert forall j | 0 <= j < |gs| :: gs'[j][0] == gs[j][0];
  }

  lemma NewGroup(gs: seq<seq<Child>>, c: Child)
    requires AllAlike(gs) && Unlike(gs) && forall j | 0 <= j < |gs| :: Signature(gs[j][0].sub) != Signature(c.sub)
    ensures AllAlike(gs + [[c]]) && Unlike(gs + [[c]]) && Flatten(gs + [[c]]) == Flatten(gs) + [c]
  {
    NewGroupAlike(gs, c);
    NewGroupUnlike(gs, c);
    assert (gs + [[c]])[..|gs|] == gs;
  }

  lemma NewGroupAlike(gs: seq<seq<Child>>, c: Child)
    requires AllAlike(gs)
    ensures AllAlike(gs + [[c]])
  {
    assert Alike([c]);
  }

  lemma NewGroupUnlike(gs: seq<seq<Child>>, c: Child)
    requires AllAlike(gs) && AllAlike(gs + [[c]])
    requires Unlike(gs) && forall j | 0 <= j < |gs| :: Signature(gs[j][0].sub) != Signature(c.sub)
    ensures Unlike(gs + [[c]])
  {
    var gs' := gs + [[c]];
    assert gs'[|gs|] == [c];
    assert forall j | 0 <= j < |gs| :: gs'[j] == gs[j];
  }

  lemma {:induction false} FlattenWithout(gs: seq<seq<Child>>, k: nat)
    requires k < |gs|
    ensures multiset(Flatten(gs)) == multiset(Flatten(gs[..k] + gs[k + 1..])) + multiset(gs[k])
  {
    var n := |gs| - 1;
    if k < n {
      FlattenWithout(gs[..n], k);
      var rest := gs[..k] + gs[k + 1..];
      assert gs[..n][..k] + gs[..n][k + 1..] == rest[..n - 1];
      assert rest[n - 1] == gs[n];
    } else {
      assert gs[..k] + gs[k + 1..] == gs[..n];
    }
  }

  /** The order of groups does not matter to what is in them. */
  lemma {:induction false} FlattenPermuted(gs: seq<seq<Child>>, hs: seq<seq<Child>>)
    requires multiset(gs) == multiset(hs)
    ensures multiset(Flatten(gs)) == multiset(Flatten(hs))
  {
    if gs == [] {
      assert |multiset(hs)| == 0;
      assert hs == [];
    } else {
      var n := |gs| - 1;
      assert gs == gs[..n] + [gs[n]];
      assert gs[n] in multiset(hs);
      var k :| 0 <= k < |hs| && hs[k] == gs[n];
      WithoutOne(hs, k);
      assert multiset(gs[..n]) == multiset(gs) - multiset{gs[n]};
      FlattenPermuted(gs[..n], hs[..k] + hs[k + 1..]);
      FlattenWithout(hs, k);
    }
  }

  lemma WithoutOne(hs: seq<seq<Child>>, k: nat)
    requires k < |hs|
    ensures multiset(hs[..k] + hs[k + 1..]) == multiset(hs) - multiset{hs[k]}
  {
    assert hs == hs[..k] + [hs[k]] + hs[k + 1..];
  }

  lemma {:induction false} InFlatten(gs: seq<seq<Child>>, k: nat, c: Child)
    requires k < |gs| && c in gs[k]
    ensures c in Flatten(gs)
  {
    if k < |gs| - 1 { InFlatten(gs[..|gs| - 1], k, c); }
  }

  // ----- The program

  function Size(m: Module): nat { 1 + Sizes(m.children) }

  function Sizes(cs: seq<Child>): nat {
    if cs == [] then 0 else Sizes(cs[..|cs| - 1]) + ChildSize(cs[|cs| - 1])
  }

  function ChildSize(c: Child): nat { Size(c.sub) }

  lemma {:induction false} ChildIsSmaller(cs: seq<Child>, c: Child)
    requires c in cs
    ensures Size(c.sub) <= Sizes(cs)
  {
    var front, last := cs[..|cs| - 1], cs[|cs| - 1];
    assert cs == front + [last];
    assert ChildSize(last) == Size(last.sub);
    if c != last { ChildIsSmaller(front, c); }
  }

  ghost predicate Numbered(cs: seq<Child>) { forall i | 0 <= i < |cs| :: cs[i].name.Num? }

  function Indices(cs: seq<Child>): seq<int>
    requires Numbered(cs)
  {
    seq(|cs|, i requires 0 <= i < |cs| => cs[i].name.index)
  }

  /** The numbered children and the others, each in the order of the children. */
  ghost predicate Separated(numbered: seq<Child>, named: seq<Child>, cs: seq<Child>) {
    && Numbered(numbered) && multiset(numbered) + multiset(named) == multiset(cs)
    && (forall i | 0 <= i < |named| :: named[i].name.Str?)
    && Follows(numbered, cs) && Follows(named, cs)
  }

  lemma SeparateOn(numbered: seq<Child>, named: seq<Child>, cs: seq<Child>, c: Child)
    requires Separated(numbered, named, cs)
    ensures if c.name.Num? then Separated(numbered + [c], named, cs + [c])
            else Separated(numbered, named + [c], cs + [c])
  {
    FollowsOn(numbered, cs, c);
    FollowsOn(named, cs, c);
  }

  method Separate(cs: seq<Child>) returns (numbered: seq<Child>, named: seq<Child>)
    ensures Separated(numbered, named, cs)
  {
    numbered, named := [], [];
    for i := 0 to |cs|
      invariant Separated(numbered, named, cs[..i])
    {
      assert cs[..i + 1] == cs[..i] + [cs[i]];
      SeparateOn(numbered, named, cs[..i], cs[i]);
      if cs[i].name.Num? {
        numbered := numbered + [cs[i]];
      } else {
        named := named + [cs[i]];
      }
    }
    assert cs[..|cs|] == cs;
  }

  /** What is printed for one group: each of its indices once, in ranges that do not touch. */
  ghost predicate GroupPrinted(group: Group, g: seq<Child>)
    requires Numbered(g)
  {
    && Proper(group.ranges) && Apart(group.ranges) && group.count == |g|
    && multiset(ExpandAll(group.ranges)) == multiset(Indices(g)) && Ascending(ExpandAll(group.ranges))
  }

  /** A group can stand for its members, because equal signatures mean equal modules. */
  lemma GroupHolds(group: Group, g: seq<Child>)
    requires Alike(g) && Numbered(g) && GroupPrinted(group, g) && Unfold(group.body) == TreeOf(g[0].sub)
    ensures Holds(OneGroup(group), g)
  {
    forall c | c in g ensures c.name in OneGroup(group) && OneGroup(group)[c.name] == TreeOf(c.sub) {
      SignatureDetermines(c.sub, g[0].sub);
      IndexOfMember(group, g, c);
      OneGroupHas(group, c.name);
    }
    forall n | n in OneGroup(group) ensures HasName(g, n) {
      OneGroupHas(group, n);
      assert n.index in multiset(ExpandAll(group.ranges));
      var i :| 0 <= i < |g| && Indices(g)[i] == n.index;
      assert g[i].name == n;
    }
  }

  lemma IndexOfMember(group: Group, g: seq<Child>, c: Child)
    requires Numbered(g) && GroupPrinted(group, g) && c in g
    ensures c.name.Num? && c.name.index in ExpandAll(group.ranges)
  {
    var i :| 0 <= i < |g| && g[i] == c;
    assert Indices(g)[i] == c.name.index;
    assert c.name.index in multiset(ExpandAll(group.ranges));
  }

  /** A group holds its body under each of its numbers. */
  lemma OneGroupHas(group: Group, n: Name)
    requires Proper(group.ranges)
    ensures n in OneGroup(group) <==> n.Num? && n.index in ExpandAll(group.ranges)
    ensures n in OneGroup(group) ==> OneGroup(group)[n] == Unfold(group.body)
  {
  }

  /** Members of a group have different numbers. */
  lemma IndicesDiffer(g: seq<Child>)
    requires Numbered(g) && Consistent(g) && Distinct(g)
    ensures Distinct(Indices(g))
  {
    forall i, j | 0 <= i < j < |g| ensures Indices(g)[i] != Indices(g)[j] { assert g[i] in g && g[j] in g; }
  }

  method FormatGroup(g: seq<Child>) returns (group: Group)
    requires Alike(g) && Numbered(g) && Consistent(g) && Distinct(g) && ChildWellNamed(g[0])
    ensures GroupPrinted(group, g) && Holds(OneGroup(group), g)
    decreases Size(g[0].sub), 3
  {
    var ranges := FormatRanges(Indices(g));
    IndicesDiffer(g);
    var body, _, _ := Format(g[0].sub);
    group := Group(ranges.value, |g|, body);
    GroupHolds(group, g);
  }

  /** All printed numbers, group after group. */
  ghost function PrintedNumbers(groups: seq<Group>): seq<int> {
    if groups == [] then []
    else
      var g := groups[|groups| - 1];
      PrintedNumbers(groups[..|groups| - 1]) + if Proper(g.ranges) then ExpandAll(g.ranges) else []
  }

  /** `cs` is made of children of a well named module: what follows from that for any part of them. */
  ghost predicate PartOf(cs: seq<Child>, all: seq<Child>) {
    multiset(cs) <= multiset(all)
  }

  lemma PartIsFine(cs: seq<Child>, m: Module)
    requires WellNamed(m) && PartOf(cs, m.children)
    ensures Consistent(cs) && Distinct(cs)
    ensures forall c | c in cs :: ChildWellNamed(c) && Size(c.sub) < Size(m)
  {
    Sorting.PartOfDistinct(cs, m.children);
    forall c | c in cs ensures c in m.children && ChildWellNamed(c) && Size(c.sub) < Size(m) {
      assert c in multiset(cs) && c in multiset(m.children);
      ChildIsSmaller(m.children, c);
    }
  }

  lemma GroupIsPart(gs: seq<seq<Child>>, k: nat)
    requires k < |gs|
    ensures multiset(gs[k]) <= multiset(Flatten(gs)) && Flatten(gs[..k + 1]) == Flatten(gs[..k]) + gs[k]
  {
    assert gs[..k + 1][..k] == gs[..k] && gs[..k + 1][k] == gs[k];
    GroupWithin(gs, k);
  }

  lemma GroupWithin(gs: seq<seq<Child>>, k: nat)
    requires k < |gs|
    ensures multiset(gs[k]) <= multiset(Flatten(gs))
  {
    FlattenWithout(gs, k);
  }

  function FirstIndex(g: seq<Child>): int {
    if g != [] && g[0].name.Num? then g[0].name.index else 0
  }

  /** Groups in the order of their first index. */
  method SortedGroups(numbered: seq<Child>) returns (gs: seq<seq<Child>>)
    requires Numbered(numbered)
    ensures AllAlike(gs) && Unlike(gs) && multiset(Flatten(gs)) == multiset(numbered)
    ensures forall k | 0 <= k < |gs| :: Numbered(gs[k])
    ensures forall j, k | 0 <= j < k < |gs| :: FirstIndex(gs[j]) <= FirstIndex(gs[k])
    ensures AllFollow(gs, numbered)
  {
    var groups := GroupBySignature(numbered);
    gs := Sorting.Sort(groups, (g, h) => FirstIndex(g) <= FirstIndex(h));
    SortKeepsGroups(groups, gs);
    FlattenPermuted(groups, gs);
    forall k | 0 <= k < |gs| ensures Follows(gs[k], numbered) { assert gs[k] in multiset(groups); }
    forall k | 0 <= k < |gs| ensures Numbered(gs[k]) {
      forall i | 0 <= i < |gs[k]| ensures gs[k][i].name.Num? {
        InFlatten(gs, k, gs[k][i]);
        assert gs[k][i] in multiset(Flatten(gs));
      }
    }
  }

  lemma SortKeepsGroups(groups: seq<seq<Child>>, gs: seq<seq<Child>>)
    requires AllAlike(groups) && Unlike(groups) && multiset(gs) == multiset(groups)
    ensures AllAlike(gs) && Unlike(gs)
  {
    Sorting.PartOfDistinct(gs, groups);
    forall k | 0 <= k < |gs| ensures gs[k] in groups { assert gs[k] in multiset(groups); }
  }

  ghost predicate FormattedTo(groups: seq<Group>, gs: seq<seq<Child>>) {
    AllPrinted(groups, gs) && Holds(GroupKids(groups), Flatten(gs))
  }

  method FormatNext(m: Module, gs: seq<seq<Child>>, k: nat, groups: seq<Group>) returns (group: Group)
    requires WellNamed(m) && PartOf(Flatten(gs), m.children) && k < |gs| && Alike(gs[k]) && Numbered(gs[k])
    requires FormattedTo(groups, gs[..k])
    ensures FormattedTo(groups + [group], gs[..k + 1])
    decreases Size(m), 0
  {
    GroupIsFine(m, gs, k);
    group := FormatGroup(gs[k]);
    OneMoreFormatted(m, gs, k, groups, group);
  }

  lemma OneMoreFormatted(m: Module, gs: seq<seq<Child>>, k: nat, groups: seq<Group>, group: Group)
    requires WellNamed(m) && PartOf(Flatten(gs), m.children) && k < |gs| && FormattedTo(groups, gs[..k])
    requires Numbered(gs[k]) && GroupPrinted(group, gs[k]) && Holds(OneGroup(group), gs[k])
    ensures FormattedTo(groups + [group], gs[..k + 1])
  {
    OneMoreGroup(m, gs, k, groups, group);
    OneMorePrinted(gs, k, groups, group);
  }

  /** Printing the numbered children, group by group. */
  method FormatGroups(m: Module, gs: seq<seq<Child>>) returns (groups: seq<Group>)
    requires WellNamed(m) && PartOf(Flatten(gs), m.children) && AllAlike(gs)
             && forall k | 0 <= k < |gs| :: Numbered(gs[k])
    ensures FormattedTo(groups, gs)
    decreases Size(m), 1
  {
    groups := [];
    for k := 0 to |gs|
      invariant FormattedTo(groups, gs[..k])
    {
      var group := FormatNext(m, gs, k, groups);
      groups := groups + [group];
    }
    assert gs[..|gs|] == gs;
  }

  ghost predicate AllPrinted(groups: seq<Group>, gs: seq<seq<Child>>) {
    |groups| == |gs| && forall k | 0 <= k < |gs| :: Numbered(gs[k]) && GroupPrinted(groups[k], gs[k])
  }

  lemma OneMorePrinted(gs: seq<seq<Child>>, k: nat, groups: seq<Group>, group: Group)
    requires k < |gs| && AllPrinted(groups, gs[..k]) && Numbered(gs[k]) && GroupPrinted(group, gs[k])
    ensures AllPrinted(groups + [group], gs[..k + 1])
  {
    var groups', before, after := groups + [group], gs[..k], gs[..k + 1];
    forall i | 0 <= i < |after| ensures Numbered(after[i]) && GroupPrinted(groups'[i], after[i]) {
      if i < k { assert groups'[i] == groups[i] && after[i] == before[i]; }
    }
  }

  lemma {:induction false} NumbersOf(groups: seq<Group>, gs: seq<seq<Child>>)
    requires AllPrinted(groups, gs)
    ensures Numbered(Flatten(gs)) && multiset(PrintedNumbers(groups)) == multiset(Indices(Flatten(gs)))
  {
    if gs != [] {
      var n := |gs| - 1;
      NumbersOf(groups[..n], gs[..n]);
      IndicesAppend(Flatten(gs[..n]), gs[n]);
      assert GroupPrinted(groups[n], gs[n]);
    }
  }

  lemma IndicesAppend(a: seq<Child>, b: seq<Child>)
    requires Numbered(a) && Numbered(b)
    ensures Numbered(a + b) && Indices(a + b) == Indices(a) + Indices(b)
  {
  }

  /** Every numbered child's number is printed once, and no other number is printed. */
  lemma ExactlyOnce(m: Module, groups: seq<Group>, gs: seq<seq<Child>>, named: seq<Child>, i: int)
    requires WellNamed(m) && AllPrinted(groups, gs) && multiset(Flatten(gs)) + multiset(named) == multiset(m.children)
    requires forall k | 0 <= k < |named| :: named[k].name.Str?
    ensures multiset(PrintedNumbers(groups))[i] == if HasName(m.children, Num(i)) then 1 else 0
  {
    var cs := Flatten(gs);
    NumbersOf(groups, gs);
    PartIsFine(cs, m);
    IndicesDiffer(cs);
    Sorting.CountOfDistinct(Indices(cs), i);
    NumberedHere(cs, named, m.children, i);
  }

  /** A number is among the numbered children's exactly when a child has it for a name. */
  lemma NumberedHere(cs: seq<Child>, named: seq<Child>, all: seq<Child>, i: int)
    requires Numbered(cs) && multiset(cs) + multiset(named) == multiset(all)
             && forall k | 0 <= k < |named| :: named[k].name.Str?
    ensures i in Indices(cs) <==> HasName(all, Num(i))
  {
    if HasName(all, Num(i)) {
      var k :| 0 <= k < |all| && all[k].name == Num(i);
      var c := all[k];
      assert c in multiset(all);
      assert c !in named;
      assert c in multiset(cs);
      var j :| 0 <= j < |cs| && cs[j] == c;
      assert Indices(cs)[j] == i;
    } else {
      forall j | 0 <= j < |cs| ensures Indices(cs)[j] != i {
        assert cs[j] in multiset(cs);
        assert cs[j] in multiset(all);
        assert cs[j] in all;
      }
    }
  }

  lemma GroupIsFine(m: Module, gs: seq<seq<Child>>, k: nat)
    requires WellNamed(m) && k < |gs| && PartOf(Flatten(gs), m.children) && Alike(gs[k])
    ensures Consistent(gs[k]) && Distinct(gs[k]) && ChildWellNamed(gs[k][0]) && Size(gs[k][0].sub) < Size(m)
  {
    GroupIsPart(gs, k);
    PartIsFine(gs[k], m);
    assert gs[k][0] in gs[k];
  }

  lemma OneMoreGroup(m: Module, gs: seq<seq<Child>>, k: nat, groups: seq<Group>, group: Group)
    requires WellNamed(m) && k < |gs| && PartOf(Flatten(gs), m.children)
    requires Holds(GroupKids(groups), Flatten(gs[..k])) && Holds(OneGroup(group), gs[k])
    ensures Holds(GroupKids(groups + [group]), Flatten(gs[..k + 1]))
  {
    GroupIsPart(gs, k);
    GroupsArePart(gs, k);
    PartIsFine(Flatten(gs[..k]) + gs[k], m);
    HoldsUnion(GroupKids(groups), Flatten(gs[..k]), OneGroup(group), gs[k]);
    assert (groups + [group])[..|groups|] == groups;
  }

  lemma {:induction false} GroupsArePart(gs: seq<seq<Child>>, k: nat)
    requires k < |gs|
    ensures multiset(Flatten(gs[..k + 1])) <= multiset(Flatten(gs))
  {
    if k < |gs| - 1 {
      GroupsArePart(gs[..|gs| - 1], k);
      assert gs[..|gs| - 1][..k + 1] == gs[..k + 1];
    } else {
      assert gs[..k + 1] == gs;
    }
  }

  method FormatEntry(m: Module, named: seq<Child>, k: nat) returns (entry: Entry)
    requires WellNamed(m) && PartOf(named, m.children) && k < |named|
    ensures entry.name == named[k].name && Unfold(entry.body) == TreeOf(named[k].sub)
    decreases Size(m), 0
  {
    PartIsFine(named, m);
    assert named[k] in named;
    var body, _, _ := Format(named[k].sub);
    entry := Entry(named[k].name, body);
  }

  /** Printing the other children. */
  method FormatNamed(m: Module, named: seq<Child>) returns (entries: seq<Entry>)
    requires WellNamed(m) && PartOf(named, m.children)
    ensures |entries| == |named| && forall k | 0 <= k < |named| :: entries[k].name == named[k].name
    ensures Holds(NamedKids(entries), named)
    decreases Size(m), 1
  {
    PartIsFine(named, m);
    entries := [];
    for k := 0 to |named|
      invariant |entries| == k && forall j | 0 <= j < k :: entries[j].name == named[j].name
      invariant Holds(NamedKids(entries), named[..k])
    {
      var entry := FormatEntry(m, named, k);
      OneMoreEntry(named, k, entries, entry);
      entries := entries + [entry];
    }
    assert named[..|named|] == named;
  }

  lemma OneMoreEntry(named: seq<Child>, k: nat, entries: seq<Entry>, entry: Entry)
    requires k < |named| && Consistent(named) && Holds(NamedKids(entries), named[..k])
    requires entry.name == named[k].name && Unfold(entry.body) == TreeOf(named[k].sub)
    ensures Holds(NamedKids(entries + [entry]), named[..k + 1])
  {
    assert named[..k + 1] == named[..k] + [named[k]];
    assert named == named[..k + 1] + named[k + 1..];
    ConsistentPart(named[..k + 1], named[k + 1..]);
    OneHolds(named[k]);
    HoldsUnion(NamedKids(entries), named[..k], OneEntry(entry), [named[k]]);
    assert (entries + [entry])[..|entries|] == entries;
  }

  /** The numbered children `cs` cut into groups: alike inside, unlike across, by first index. */
  ghost predicate Grouped(gs: seq<seq<Child>>, cs: seq<Child>) {
    && AllAlike(gs) && Unlike(gs)
    && (forall j, k | 0 <= j < k < |gs| :: FirstIndex(gs[j]) <= FirstIndex(gs[k]))
    && forall c :: multiset(Flatten(gs))[c] == if c.name.Num? then multiset(cs)[c] else 0
  }

  lemma GroupsTheNumbered(m: Module, gs: seq<seq<Child>>, named: seq<Child>)
    requires AllAlike(gs) && Unlike(gs) && forall j, k | 0 <= j < k < |gs| :: FirstIndex(gs[j]) <= FirstIndex(gs[k])
    requires multiset(Flatten(gs)) + multiset(named) == multiset(m.children)
    requires Numbered(Flatten(gs)) && forall k | 0 <= k < |named| :: named[k].name.Str?
    ensures Grouped(gs, m.children)
  {
    forall c ensures multiset(Flatten(gs))[c] == if c.name.Num? then multiset(m.children)[c] else 0 {
      assert c in multiset(Flatten(gs)) <==> c in Flatten(gs);
      assert c in multiset(named) <==> c in named;
      assert multiset(m.children)[c] == multiset(Flatten(gs))[c] + multiset(named)[c];
    }
  }

  /** The print of a module: unfolding it gives the module back, every child under its own name.
      There is one printed group for each of `gs`, with its size and its indices in ranges that do
      not touch, and one printed entry for each of `named`; the members of a group, and the named
      children, are in the order of the children. */
  method Format(m: Module) returns (p: Printed, ghost gs: seq<seq<Child>>, ghost named: seq<Child>)
    requires WellNamed(m)
    ensures Unfold(p) == TreeOf(m)
    ensures Grouped(gs, m.children) && AllPrinted(p.groups, gs) && AllFollow(gs, m.children)
    ensures Follows(named, m.children) && |p.named| == |named|
            && forall k | 0 <= k < |named| :: p.named[k].name == named[k].name
    ensures forall i :: multiset(PrintedNumbers(p.groups))[i] == if HasName(m.children, Num(i)) then 1 else 0
    decreases Size(m), 2
  {
    var numbered, others := Separate(m.children);
    var sorted := SortedGroups(numbered);
    gs, named := sorted, others;
    assert multiset(Flatten(gs)) <= multiset(m.children) && multiset(named) <= multiset(m.children);
    var groups := FormatGroups(m, sorted);
    var entries := FormatNamed(m, others);
    p := Printed(m.info, groups, entries);
    NumbersOf(groups, gs);
    GroupsTheNumbered(m, gs, named);
    AllChildren(m, Flatten(gs), named, GroupKids(groups), NamedKids(entries));
    forall k | 0 <= k < |gs| ensures Follows(gs[k], m.children) { FollowsThrough(gs[k], numbered, m.children); }
    forall i ensures multiset(PrintedNumbers(groups))[i] == if HasName(m.children, Num(i)) then 1 else 0 {
      ExactlyOnce(m, groups, gs, named, i);
    }
  }

  lemma AllChildren(m: Module, numbered: seq<Child>, named: seq<Child>, a: map<Name, Tree>, b: map<Name, Tree>)
    requires WellNamed(m) && multiset(numbered) + multiset(named) == multiset(m.children)
    requires Holds(a, numbered) && Holds(b, named)
    ensures a + b == KidsOf(m.children)
  {
    PartIsFine(numbered + named, m);
    HoldsUnion(a, numbered, b, named);
    KidsHold(m.children);
    forall c ensures c in numbered + named <==> c in m.children {
      assert c in multiset(numbered + named) <==> c in multiset(m.children);
    }
    HoldsDetermines(a + b, numbered + named, KidsOf(m.children), m.children);
  }
}
