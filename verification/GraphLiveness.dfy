/** When the partitions give the graph's outputs under every semantics: exactly when no mutation that can
    still reach an output is lost. */
module GraphLiveness {
  import opened GraphPartition
  import opened GraphMeaning

  // ----- What can still reach an output

  /** The buffers that matter before a node, if those in `live` matter after it. */
  ghost function BeforeNode(g: Graph, n: Node, live: set<Name>): set<Name>
    requires RealOk(g)
  {
    if Written(g, n) !! live then live else (live - Written(g, n)) + (Seen(g, n) - g.constants)
  }

  /** The buffers that matter before node `i` of a partition. */
  ghost function LiveAt(g: Graph, p: seq<Node>, i: nat, live: set<Name>): set<Name>
    requires RealOk(g) && i <= |p|
    decreases |p| - i
  {
    if i == |p| then live else BeforeNode(g, p[i], LiveAt(g, p, i + 1, live))
  }

  /** The buffers the graph returns. */
  ghost function Final(g: Graph): set<Name>
    requires RealOk(g)
  {
    set n | n in g.outputs && n in g.known && !IsNone(g, n)
  }

  /** The buffers that matter before call `k`. */
  ghost function Live(g: Graph, ps: seq<seq<Node>>, k: nat): set<Name>
    requires RealOk(g) && k <= |ps|
    decreases |ps| - k
  {
    if k == |ps| then Final(g) else LiveAt(g, ps[k], 0, Live(g, ps, k + 1))
  }

  /** A partition that mutates a buffer from outside which matters after it also uses that buffer under
      some name from outside. */
  ghost predicate LiveMutationsDeclared(g: Graph, ps: seq<seq<Node>>, k: nat)
    requires RealOk(g) && k < |ps|
  {
    forall x | x in OutputNames(ps[k]) && !IsNone(g, x) && Real(g, x) in Live(g, ps, k + 1) ::
      Real(g, x) in OutputNames(ps[k]) || Real(g, x) in InputNames(g, ps[k])
  }

  ghost predicate WrittenFrom(g: Graph, p: seq<Node>, i: nat, n: Name)
    requires RealOk(g)
  {
    exists j | i <= j < |p| :: n in Written(g, p[j])
  }

  /** Before node `i`, what matters is relied on by the body, or passes the rest of the partition by. */
  lemma {:induction false} LiveIsRelied(g: Graph, ps: seq<seq<Node>>, p: seq<Node>, i: nat, live: set<Name>, n: Name)
    requires NamesOk(g, ps) && InOrder(p) && i <= |p| && n in LiveAt(g, p, i, live)
    ensures n in Relied(g, p, i) || (n in live && !WrittenFrom(g, p, i, n))
    decreases |p| - i
  {
    if i < |p| {
      SeenIsRelied(g, ps, p, i);
      ReliedGrows(g, p, i);
      if n in LiveAt(g, p, i + 1, live) && n !in Written(g, p[i]) {
        LiveIsRelied(g, ps, p, i + 1, live, n);
      }
    }
  }

  lemma {:induction false} LiveIsKnown(g: Graph, ps: seq<seq<Node>>, p: seq<Node>, i: nat, live: set<Name>, n: Name)
    requires NamesOk(g, ps) && PartitionNamesOk(g, p) && i <= |p| && n in LiveAt(g, p, i, live)
    requires forall m | m in live :: m in g.known && !IsNone(g, m)
    ensures n in g.known && !IsNone(g, n)
    decreases |p| - i
  {
    if i < |p| {
      if n in LiveAt(g, p, i + 1, live) {
        LiveIsKnown(g, ps, p, i + 1, live, n);
      } else {
        var x :| x in p[i].uses - p[i].outs && !IsNone(g, x) && n == Real(g, x);
        NoneOfReal(g, ps, x);
        assert x in UsedNames(p);
      }
    }
  }

  /** What matters is needed. */
  lemma {:induction false} LiveIsNeeded(g: Graph, ps: seq<seq<Node>>, k: nat, n: Name)
    requires ScheduleOk(g, ps) && k <= |ps| && n in Live(g, ps, k)
    ensures n in Needed(g, ps, k)
    decreases |ps| - k
  {
    if k < |ps| {
      var p, live := ps[k], Live(g, ps, k + 1);
      assert PartitionNamesOk(g, p) && InOrder(p);
      forall m | m in live ensures m in Needed(g, ps, k + 1) { LiveIsNeeded(g, ps, k + 1, m); }
      LiveIsKnown(g, ps, p, 0, live, n);
      LiveIsRelied(g, ps, p, 0, live, n);
      assert p[..0] == [];
      if n !in InputNames(g, p) { PassedBy(g, ps, k, n); }
    }
  }

  /** A needed name that a partition neither reads nor writes was needed before it. */
  lemma PassedBy(g: Graph, ps: seq<seq<Node>>, k: nat, n: Name)
    requires NamesOk(g, ps) && k < |ps| && n in Unmet(g, ps, k + 1) && !IsNone(g, n)
    requires n !in InputNames(g, ps[k]) && !WrittenFrom(g, ps[k], 0, n)
    ensures n in Unmet(g, ps, k)
  {
    var p := ps[k];
    assert PartitionNamesOk(g, p);
    UnmetIsReal(g, ps, k + 1, n);
    if n in Returned(g, ps, k) {
      var x :| x in (OutputNames(p) * Unmet(g, ps, k + 1)) + ((InputNames(g, p) * g.known) - FreedNames(p))
               && n == Real(g, x);
      if x in InputNames(g, p) {
        InputIsReal(g, p, x);
      } else {
        UnmetIsReal(g, ps, k + 1, x);
      }
    }
  }

  // ----- A closed call, seen from outside

  /** What the caller knows of a call: its signature is the one computed, and constants are constants. */
  ghost predicate CallOk<V>(g: Graph, ps: seq<seq<Node>>, k: nat, sig: Signature, constants: Env<V>) {
    && ScheduleOk(g, ps) && k < |ps| && constants.Keys <= g.constants
    && sig == SignatureOf(g, ps[k], Unmet(g, ps, k + 1), sig.skipCudagraph)
  }

  /** What the body of a partition has after `i` nodes. */
  ghost function BodyAt<V>(g: Graph, sem: Sem<V>, p: seq<Node>, i: nat, sig: Signature, held: Env<V>,
                           constants: Env<V>): Env<V>
    requires RealOk(g) && i <= |p|
  {
    RunNodes(g, sem, p[..i], Restrict(constants, sig.constants) + Restrict(held, sig.inputs))
  }

  /** That, on top of what the caller holds. */
  ghost function ClosedAt<V>(g: Graph, sem: Sem<V>, p: seq<Node>, i: nat, sig: Signature, held: Env<V>,
                             constants: Env<V>): Env<V>
    requires RealOk(g) && i <= |p|
  {
    held + BodyAt(g, sem, p, i, sig, held, constants)
  }

  lemma NextNode<V>(g: Graph, sem: Sem<V>, p: seq<Node>, i: nat, e: Env<V>)
    requires RealOk(g) && i < |p|
    ensures RunNodes(g, sem, p[..i + 1], e) == RunNode(g, sem, p[i], RunNodes(g, sem, p[..i], e))
  {
    assert p[..i + 1][..i] == p[..i];
  }

  /** What is there stays, and what is written is there. */
  lemma {:induction false} BodyHas<V>(g: Graph, sem: Sem<V>, p: seq<Node>, e: Env<V>, n: Name)
    requires RealOk(g)
    requires n in e || exists x :: x in OutputNames(p) && !IsNone(g, x) && Real(g, x) == n
    ensures n in RunNodes(g, sem, p, e)
  {
    if p != [] {
      var q, last := p[..|p| - 1], p[|p| - 1];
      assert p == q + [last];
      OneMoreNode(q, last);
      if n !in Written(g, last) { BodyHas(g, sem, q, e, n); }
    }
  }

  /** What the body may rely on, apart from constants, it has if the caller has it. */
  lemma ReliedIsClosed<V>(g: Graph, sem: Sem<V>, ps: seq<seq<Node>>, k: nat, sig: Signature, held: Env<V>,
                          constants: Env<V>,
                          i: nat, n: Name)
    requires CallOk(g, ps, k, sig, constants) && i <= |ps[k]| && n in Relied(g, ps[k], i) && n !in g.constants
    ensures AgreeAt(ClosedAt(g, sem, ps[k], i, sig, held, constants), BodyAt(g, sem, ps[k], i, sig, held, constants), n)
  {
    var p, given := ps[k], Restrict(constants, sig.constants) + Restrict(held, sig.inputs);
    assert PartitionNamesOk(g, p);
    if n in InputNames(g, p) { InputIsReal(g, p, n); }
    if n in held { BodyHas(g, sem, p[..i], given, n); }
  }

  /** And the constants it sees are the graph's. */
  lemma ConstantsInBody<V>(g: Graph, sem: Sem<V>, ps: seq<seq<Node>>, k: nat, sig: Signature, held: Env<V>,
                           full: Env<V>,
                           constants: Env<V>, i: nat, n: Name)
    requires CallOk(g, ps, k, sig, constants) && i <= |ps[k]| && n in Relied(g, ps[k], i) && n in g.constants
    requires Agree(constants, full, g.constants)
    ensures AgreeAt(BodyAt(g, sem, ps[k], i, sig, held, constants), RunNodes(g, sem, ps[k][..i], full), n)
  {
    var p, given := ps[k], Restrict(constants, sig.constants) + Restrict(held, sig.inputs);
    assert PartitionNamesOk(g, p);
    forall x | x in OutputNames(p[..i]) && !IsNone(g, x) ensures Real(g, x) != n { assert x in OutputNames(p); }
    BodyWrites(g, sem, p[..i], given, n);
    BodyWrites(g, sem, p[..i], full, n);
    assert AgreeAt(constants, full, n);
    assert n in InputNames(g, p);
  }

  /** Seen by node `i` of the body, two environments differ exactly where the closed run and the whole
      graph do. */
  lemma ViewsAgree<V>(g: Graph, sem: Sem<V>, ps: seq<seq<Node>>, k: nat, sig: Signature, held: Env<V>, full: Env<V>,
                      constants: Env<V>, i: nat)
    requires CallOk(g, ps, k, sig, constants) && i < |ps[k]| && Agree(constants, full, g.constants)
    ensures var seen, f := Seen(g, ps[k][i]), RunNodes(g, sem, ps[k][..i], full);
            Restrict(BodyAt(g, sem, ps[k], i, sig, held, constants), seen) == Restrict(f, seen)
            <==> Agree(ClosedAt(g, sem, ps[k], i, sig, held, constants), f, seen - g.constants)
  {
    var p := ps[k];
    assert InOrder(p);
    SeenIsRelied(g, ps, p, i);
    var e, f, c := BodyAt(g, sem, p, i, sig, held, constants), RunNodes(g, sem, p[..i], full),
      ClosedAt(g, sem, p, i, sig, held, constants);
    forall n | n in Seen(g, p[i])
      ensures n in g.constants ==> AgreeAt(e, f, n)
      ensures n !in g.constants ==> AgreeAt(c, e, n)
    {
      if n in g.constants {
        ConstantsInBody(g, sem, ps, k, sig, held, full, constants, i, n);
      } else {
        ReliedIsClosed(g, sem, ps, k, sig, held, constants, i, n);
      }
    }
    SameView(e, f, c, Seen(g, p[i]), g.constants);
  }

  lemma SameView<V>(e: Env<V>, f: Env<V>, c: Env<V>, seen: set<Name>, constants: set<Name>)
    requires forall n | n in seen :: if n in constants then AgreeAt(e, f, n) else AgreeAt(c, e, n)
    ensures Restrict(e, seen) == Restrict(f, seen) <==> Agree(c, f, seen - constants)
  {
    if Agree(c, f, seen - constants) {
      forall n | n in seen ensures AgreeAt(e, f, n) {
        if n !in constants { assert n in seen - constants && AgreeAt(c, f, n); }
      }
    } else {
      var n :| n in seen - constants && !AgreeAt(c, f, n);
      assert !AgreeAt(e, f, n);
      assert n in Restrict(e, seen) <==> n in e;
      assert n in Restrict(f, seen) <==> n in f;
    }
  }

  // ----- If no live mutation is lost, what matters agrees

  lemma LiveStep<V>(g: Graph, sem: Sem<V>, ps: seq<seq<Node>>, k: nat, sig: Signature, held: Env<V>, full: Env<V>,
                    constants: Env<V>, live: set<Name>, i: nat)
    requires CallOk(g, ps, k, sig, constants) && i < |ps[k]| && Agree(constants, full, g.constants)
    requires Agree(ClosedAt(g, sem, ps[k], i, sig, held, constants), RunNodes(g, sem, ps[k][..i], full),
                   LiveAt(g, ps[k], i, live))
    ensures Agree(ClosedAt(g, sem, ps[k], i + 1, sig, held, constants), RunNodes(g, sem, ps[k][..i + 1], full),
                  LiveAt(g, ps[k], i + 1, live))
  {
    var p := ps[k];
    var e, f, c := BodyAt(g, sem, p, i, sig, held, constants), RunNodes(g, sem, p[..i], full),
      ClosedAt(g, sem, p, i, sig, held, constants);
    NextNode(g, sem, p, i, full);
    NextNode(g, sem, p, i, Restrict(constants, sig.constants) + Restrict(held, sig.inputs));
    ViewsAgree(g, sem, ps, k, sig, held, full, constants, i);
    var after := LiveAt(g, p, i + 1, live);
    NodeKeepsLive(g, sem, p[i], held, e, f, after);
  }

  lemma NodeKeepsLive<V>(g: Graph, sem: Sem<V>, n: Node, held: Env<V>, e: Env<V>, f: Env<V>, after: set<Name>)
    requires RealOk(g) && Agree(held + e, f, BeforeNode(g, n, after))
    requires Restrict(e, Seen(g, n)) == Restrict(f, Seen(g, n)) <==> Agree(held + e, f, Seen(g, n) - g.constants)
    ensures Agree(held + RunNode(g, sem, n, e), RunNode(g, sem, n, f), after)
  {
    forall x | x in after ensures AgreeAt(held + RunNode(g, sem, n, e), RunNode(g, sem, n, f), x) {
      if x in Written(g, n) {
        assert Agree(held + e, f, Seen(g, n) - g.constants) by {
          forall y | y in Seen(g, n) - g.constants
            ensures AgreeAt(held + e, f, y) { assert y in BeforeNode(g, n, after); }
        }
      } else {
        assert x in BeforeNode(g, n, after);
        assert AgreeAt(held + e, f, x);
      }
    }
  }

  lemma {:induction false} LiveBody<V>(g: Graph, sem: Sem<V>, ps: seq<seq<Node>>, k: nat, sig: Signature, held: Env<V>,
                                       full: Env<V>,
                                       constants: Env<V>, live: set<Name>, i: nat)
    requires CallOk(g, ps, k, sig, constants) && i <= |ps[k]| && Agree(constants, full, g.constants)
    requires Agree(ClosedAt(g, sem, ps[k], 0, sig, held, constants), full, LiveAt(g, ps[k], 0, live))
    ensures Agree(ClosedAt(g, sem, ps[k], i, sig, held, constants), RunNodes(g, sem, ps[k][..i], full),
                  LiveAt(g, ps[k], i, live))
  {
    if i == 0 {
      assert ps[k][..0] == [];
    } else {
      LiveBody(g, sem, ps, k, sig, held, full, constants, live, i - 1);
      LiveStep(g, sem, ps, k, sig, held, full, constants, live, i - 1);
    }
  }

  /** Before the body starts, the closed run is what the caller holds. */
  lemma ClosedStarts<V>(g: Graph, sem: Sem<V>, ps: seq<seq<Node>>, k: nat, sig: Signature, held: Env<V>,
                        constants: Env<V>, n: Name)
    requires CallOk(g, ps, k, sig, constants) && n in g.known
    ensures AgreeAt(ClosedAt(g, sem, ps[k], 0, sig, held, constants), held, n)
  {
    assert ps[k][..0] == [];
  }

  /** Buffer `n` is behind an output of the partition. */
  ghost predicate WrittenIn(g: Graph, p: seq<Node>, n: Name)
    requires RealOk(g)
  {
    exists x :: x in OutputNames(p) && !IsNone(g, x) && Real(g, x) == n
  }

  /** What is returned is what the body left. */
  lemma ReturnedIsClosed<V>(g: Graph, sem: Sem<V>, ps: seq<seq<Node>>, k: nat, sig: Signature, held: Env<V>,
                            constants: Env<V>, n: Name)
    requires CallOk(g, ps, k, sig, constants) && n in Needed(g, ps, k + 1) && n in Returned(g, ps, k)
    ensures AgreeAt(AfterCall(g, sem, ps[k], sig, held, constants),
                    ClosedAt(g, sem, ps[k], |ps[k]|, sig, held, constants), n)
  {
    var p := ps[k];
    assert p[..|p|] == p && PartitionNamesOk(g, p);
    var x :| x in (OutputNames(p) * Unmet(g, ps, k + 1)) + ((InputNames(g, p) * g.known) - FreedNames(p))
             && n == Real(g, x);
    if x in InputNames(g, p) { InputIsReal(g, p, x); } else { UnmetIsReal(g, ps, k + 1, x); }
    assert n in Relied(g, p, |p|);
    ReliedIsClosed(g, sem, ps, k, sig, held, constants, |p|, n);
  }

  /** What is not returned, the caller still has as it was. */
  lemma NotReturnedIsHeld<V>(g: Graph, sem: Sem<V>, ps: seq<seq<Node>>, k: nat, sig: Signature, held: Env<V>,
                             constants: Env<V>, n: Name)
    requires CallOk(g, ps, k, sig, constants) && n in Needed(g, ps, k + 1) && n !in Returned(g, ps, k)
    ensures AgreeAt(AfterCall(g, sem, ps[k], sig, held, constants), held, n)
    ensures !WrittenIn(g, ps[k], n) ==>
              AgreeAt(ClosedAt(g, sem, ps[k], |ps[k]|, sig, held, constants), held, n)
  {
    var p, given := ps[k], Restrict(constants, sig.constants) + Restrict(held, sig.inputs);
    UnmetIsReal(g, ps, k + 1, n);
    FreedIsMet(g, ps, k, n);
    var returned := Returned(g, ps, k);
    assert n in InputNames(g, p) ==> Real(g, n) in returned;
    assert n !in sig.outputs && n !in sig.deallocated && n !in given;
    assert p[..|p|] == p;
    if !WrittenIn(g, p, n) { BodyWrites(g, sem, p, given, n); }
  }

  /** A needed buffer that the partition writes and declares is returned. */
  lemma DeclaredIsReturned(g: Graph, ps: seq<seq<Node>>, k: nat, n: Name)
    requires ScheduleOk(g, ps) && k < |ps| && n in Needed(g, ps, k + 1)
    requires n in OutputNames(ps[k]) || n in InputNames(g, ps[k])
    ensures n in Returned(g, ps, k)
  {
    UnmetIsReal(g, ps, k + 1, n);
    FreedIsMet(g, ps, k, n);
    var returned := Returned(g, ps, k);
    assert n in OutputNames(ps[k]) ==> Real(g, n) in returned;
    assert n in InputNames(g, ps[k]) ==> Real(g, n) in returned;
  }

  lemma LiveCall<V>(g: Graph, sem: Sem<V>, ps: seq<seq<Node>>, k: nat, sig: Signature, held: Env<V>, full: Env<V>,
                    constants: Env<V>)
    requires CallOk(g, ps, k, sig, constants) && LiveMutationsDeclared(g, ps, k)
    requires Agree(held, full, Live(g, ps, k)) && Agree(constants, full, g.constants)
    ensures Agree(AfterCall(g, sem, ps[k], sig, held, constants), RunNodes(g, sem, ps[k], full), Live(g, ps, k + 1))
  {
    var p, live := ps[k], Live(g, ps, k + 1);
    var closed, after := ClosedAt(g, sem, p, |p|, sig, held, constants), AfterCall(g, sem, p, sig, held, constants);
    forall n | n in Live(g, ps, k) ensures AgreeAt(ClosedAt(g, sem, p, 0, sig, held, constants), full, n) {
      LiveIsNeeded(g, ps, k, n);
      ClosedStarts(g, sem, ps, k, sig, held, constants, n);
      assert AgreeAt(held, full, n);
    }
    LiveBody(g, sem, ps, k, sig, held, full, constants, live, |p|);
    assert p[..|p|] == p;
    forall n | n in live ensures AgreeAt(after, RunNodes(g, sem, p, full), n) {
      LiveIsNeeded(g, ps, k + 1, n);
      assert AgreeAt(closed, RunNodes(g, sem, p, full), n);
      if n in Returned(g, ps, k) {
        ReturnedIsClosed(g, sem, ps, k, sig, held, constants, n);
      } else {
        if WrittenIn(g, p, n) { DeclaredIsReturned(g, ps, k, n); }
        NotReturnedIsHeld(g, sem, ps, k, sig, held, constants, n);
      }
    }
  }

  lemma LiveStart<V>(g: Graph, ps: seq<seq<Node>>, inputs: Env<V>, constants: Env<V>)
    requires ScheduleOk(g, ps) && EnvsOk(g, inputs, constants)
    ensures Agree(inputs, inputs + constants, Live(g, ps, 0)) && Agree(constants, inputs + constants, g.constants)
  {
    forall n | n in Live(g, ps, 0) ensures AgreeAt(inputs, inputs + constants, n) { LiveIsNeeded(g, ps, 0, n); }
  }

  lemma LiveNext<V>(g: Graph, sem: Sem<V>, ps: seq<seq<Node>>, k: nat, sig: Signature, held: Env<V>, full: Env<V>,
                    constants: Env<V>)
    requires CallOk(g, ps, k, sig, constants) && LiveMutationsDeclared(g, ps, k)
    requires Agree(held, full, Live(g, ps, k)) && Agree(constants, full, g.constants)
    ensures Agree(AfterCall(g, sem, ps[k], sig, held, constants), RunNodes(g, sem, ps[k], full), Live(g, ps, k + 1))
    ensures Agree(constants, RunNodes(g, sem, ps[k], full), g.constants)
  {
    LiveCall(g, sem, ps, k, sig, held, full, constants);
    ConstantsKept(g, sem, ps, k, full, constants);
  }

  // ----- Both ways to run, side by side

  /** Call `k` takes what the caller holds from `hs[k]` to `hs[k + 1]`. */
  ghost predicate CallAt<V>(g: Graph, sem: Sem<V>, ps: seq<seq<Node>>, sigs: seq<Signature>, constants: Env<V>,
                            hs: seq<Env<V>>, k: nat)
    requires RealOk(g) && k < |ps| == |sigs| && |hs| == |ps| + 1
  {
    hs[k + 1] == AfterCall(g, sem, ps[k], sigs[k], hs[k], constants)
  }

  /** The nodes of partition `k` take the whole graph's buffers from `fs[k]` to `fs[k + 1]`. */
  ghost predicate NodesAt<V>(g: Graph, sem: Sem<V>, ps: seq<seq<Node>>, fs: seq<Env<V>>, k: nat)
    requires RealOk(g) && k < |ps| && |fs| == |ps| + 1
  {
    fs[k + 1] == RunNodes(g, sem, ps[k], fs[k])
  }

  ghost predicate SignatureAt(g: Graph, ps: seq<seq<Node>>, sigs: seq<Signature>, k: nat)
    requires RealOk(g) && k < |ps| == |sigs|
  {
    sigs[k] == SignatureOf(g, ps[k], Unmet(g, ps, k + 1), sigs[k].skipCudagraph)
  }

  /** What the caller holds and what the whole graph has, before every call and after the last. */
  ghost predicate SideBySide<V>(g: Graph, sem: Sem<V>, ps: seq<seq<Node>>, sigs: seq<Signature>, constants: Env<V>,
                                hs: seq<Env<V>>, fs: seq<Env<V>>)
  {
    && ScheduleOk(g, ps) && constants.Keys <= g.constants && |ps| == |sigs| && |hs| == |fs| == |ps| + 1
    && (forall k | 0 <= k < |ps| :: SignatureAt(g, ps, sigs, k))
    && (forall k | 0 <= k < |ps| :: CallAt(g, sem, ps, sigs, constants, hs, k))
    && (forall k | 0 <= k < |ps| :: NodesAt(g, sem, ps, fs, k))
  }

  lemma HeldRun<V>(g: Graph, sem: Sem<V>, ps: seq<seq<Node>>, sigs: seq<Signature>, inputs: Env<V>, constants: Env<V>)
    returns (hs: seq<Env<V>>)
    requires RealOk(g) && |ps| == |sigs|
    ensures |hs| == |ps| + 1 && forall k | 0 <= k < |ps| :: CallAt(g, sem, ps, sigs, constants, hs, k)
    ensures forall k | 0 <= k <= |ps| :: hs[k] == Held(g, sem, ps, sigs, k, inputs, constants)
  {
    hs := seq(|ps| + 1, k requires 0 <= k <= |ps| => Held(g, sem, ps, sigs, k, inputs, constants));
  }

  lemma WholeRun<V>(g: Graph, sem: Sem<V>, ps: seq<seq<Node>>, start: Env<V>) returns (fs: seq<Env<V>>)
    requires RealOk(g)
    ensures |fs| == |ps| + 1 && forall k | 0 <= k < |ps| :: NodesAt(g, sem, ps, fs, k)
    ensures fs[0] == start && fs[|ps|] == RunNodes(g, sem, Flat(ps, |ps|), start)
  {
    fs := seq(|ps| + 1, k requires 0 <= k <= |ps| => RunNodes(g, sem, Flat(ps, k), start));
    forall k | 0 <= k < |ps| ensures NodesAt(g, sem, ps, fs, k) {
      RunAppends(g, sem, Flat(ps, k), ps[k], start);
    }
  }

  lemma BothRuns<V>(g: Graph, sem: Sem<V>, ps: seq<seq<Node>>, skips: seq<bool>, inputs: Env<V>, constants: Env<V>)
    returns (sigs: seq<Signature>, hs: seq<Env<V>>, fs: seq<Env<V>>)
    requires ScheduleOk(g, ps) && |ps| == |skips| && constants.Keys <= g.constants
    ensures SideBySide(g, sem, ps, sigs, constants, hs, fs) && sigs == AllSignatures(g, ps, skips)
    ensures forall k | 0 <= k <= |ps| :: hs[k] == Held(g, sem, ps, sigs, k, inputs, constants)
    ensures fs[0] == inputs + constants && fs[|ps|] == RunNodes(g, sem, Flat(ps, |ps|), inputs + constants)
  {
    sigs := AllSignatures(g, ps, skips);
    forall k | 0 <= k < |ps| ensures SignatureAt(g, ps, sigs, k) { SignatureIs(g, ps, skips, k); }
    hs := HeldRun(g, sem, ps, sigs, inputs, constants);
    fs := WholeRun(g, sem, ps, inputs + constants);
  }

  /** The buffers that matter agree to the end. */
  lemma {:induction false} AgreeToEnd<V>(g: Graph, sem: Sem<V>, ps: seq<seq<Node>>, sigs: seq<Signature>,
                                         constants: Env<V>,
                                         hs: seq<Env<V>>, fs: seq<Env<V>>, k: nat)
    requires SideBySide(g, sem, ps, sigs, constants, hs, fs) && k <= |ps|
    requires forall i | 0 <= i < |ps| :: LiveMutationsDeclared(g, ps, i)
    requires Agree(hs[k], fs[k], Live(g, ps, k)) && Agree(constants, fs[k], g.constants)
    ensures Agree(hs[|ps|], fs[|ps|], Final(g))
    decreases |ps| - k
  {
    if k < |ps| {
      assert SignatureAt(g, ps, sigs, k) && CallAt(g, sem, ps, sigs, constants, hs, k) && NodesAt(g, sem, ps, fs, k);
      LiveNext(g, sem, ps, k, sigs[k], hs[k], fs[k], constants);
      AgreeToEnd(g, sem, ps, sigs, constants, hs, fs, k + 1);
    }
  }

  // ----- If one is lost, some output differs under the freest semantics

  /** A value that remembers which node made it, from what, for which buffer. */
  datatype Value = Value(id: nat, view: map<Name, Value>, name: Name)

  function Free(id: nat, view: Env<Value>, x: Name): Value { Value(id, view, x) }

  /** Forgetting all but the node gives the numbered writes. */
  ghost predicate Numbered(e: Env<Value>, m: Env<nat>) {
    (forall n :: n in e <==> n in m) && forall n | n in e :: m[n] == e[n].id + 1
  }

  lemma NumberedNode(g: Graph, n: Node, e: Env<Value>, m: Env<nat>)
    requires RealOk(g) && Numbered(e, m)
    ensures Numbered(RunNode(g, Free, n, e), RunNode(g, Stamp, n, m))
  {
  }

  lemma {:induction false} NumberedNodes(g: Graph, p: seq<Node>, e: Env<Value>, m: Env<nat>)
    requires RealOk(g) && Numbered(e, m)
    ensures Numbered(RunNodes(g, Free, p, e), RunNodes(g, Stamp, p, m))
  {
    if p != [] {
      var q := p[..|p| - 1];
      NumberedNodes(g, q, e, m);
      NumberedNode(g, p[|p| - 1], RunNodes(g, Free, q, e), RunNodes(g, Stamp, q, m));
    }
  }

  lemma NumberedCall(g: Graph, p: seq<Node>, sig: Signature, held: Env<Value>, m: Env<nat>)
    requires RealOk(g) && Numbered(held, m)
    ensures Numbered(AfterCall(g, Free, p, sig, held, map[]), AfterCall(g, Stamp, p, sig, m, map[]))
  {
    var none: Env<Value>, no: Env<nat> := map[], map[];
    var e, f := Restrict(none, sig.constants) + Restrict(held, sig.inputs),
      Restrict(no, sig.constants) + Restrict(m, sig.inputs);
    NumberedNodes(g, p, e, f);
    NumberedOutputs(held, m, RunNodes(g, Free, p, e), RunNodes(g, Stamp, p, f), sig);
  }

  lemma NumberedOutputs(held: Env<Value>, m: Env<nat>, e: Env<Value>, f: Env<nat>, sig: Signature)
    requires Numbered(held, m) && Numbered(e, f)
    ensures Numbered((held - sig.deallocated - sig.outputs) + Restrict(e, sig.outputs),
                     (m - sig.deallocated - sig.outputs) + Restrict(f, sig.outputs))
  {
  }

  lemma {:induction false} NumberedHeld(g: Graph, ps: seq<seq<Node>>, sigs: seq<Signature>, k: nat)
    returns (held: Env<Value>, m: Env<nat>)
    requires RealOk(g) && k <= |ps| == |sigs|
    ensures held == Held(g, Free, ps, sigs, k, map[], map[]) && m == Held(g, Stamp, ps, sigs, k, map[], map[])
    ensures Numbered(held, m)
  {
    if k == 0 {
      held, m := map[], map[];
    } else {
      var h, l := NumberedHeld(g, ps, sigs, k - 1);
      NumberedCall(g, ps[k - 1], sigs[k - 1], h, l);
      HeldNext(g, Free, ps, sigs, k, map[], map[]);
      HeldNext(g, Stamp, ps, sigs, k, map[], map[]);
      held, m := AfterCall(g, Free, ps[k - 1], sigs[k - 1], h, map[]),
        AfterCall(g, Stamp, ps[k - 1], sigs[k - 1], l, map[]);
    }
  }

  lemma HeldNext<V>(g: Graph, sem: Sem<V>, ps: seq<seq<Node>>, sigs: seq<Signature>, k: nat, inputs: Env<V>,
                    constants: Env<V>)
    requires RealOk(g) && 0 < k <= |ps| == |sigs|
    ensures Held(g, sem, ps, sigs, k, inputs, constants)
            == AfterCall(g, sem, ps[k - 1], sigs[k - 1], Held(g, sem, ps, sigs, k - 1, inputs, constants), constants)
  {
  }

  ghost function NumbersOf(e: Env<Value>): (m: Env<nat>)
    ensures Numbered(e, m)
  {
    map n | n in e :: e[n].id + 1
  }

  /** What a partition writes differs from anything the caller held before. */
  lemma WrittenIsNew(g: Graph, ps: seq<seq<Node>>, sigs: seq<Signature>, k: nat, full: Env<Value>, n: Name)
    requires RealOk(g) && IdsDiffer(ps) && k < |ps| == |sigs| && WrittenIn(g, ps[k], n)
    ensures !AgreeAt(Held(g, Free, ps, sigs, k, map[], map[]), RunNodes(g, Free, ps[k], full), n)
  {
    var held, m := NumberedHeld(g, ps, sigs, k);
    NumberedNodes(g, ps[k], full, NumbersOf(full));
    StampsWritten(g, ps[k], NumbersOf(full), n);
    if n in held { HeldBefore(g, ps, sigs, k, n); }
  }

  /** A difference that matters survives a node. */
  lemma NodeKeepsDifference(g: Graph, n: Node, held: Env<Value>, e: Env<Value>, f: Env<Value>, after: set<Name>,
                            x: Name)
    returns (y: Name)
    requires RealOk(g) && x in BeforeNode(g, n, after) && !AgreeAt(held + e, f, x)
    requires Restrict(e, Seen(g, n)) == Restrict(f, Seen(g, n)) <==> Agree(held + e, f, Seen(g, n) - g.constants)
    ensures y in after && !AgreeAt(held + RunNode(g, Free, n, e), RunNode(g, Free, n, f), y)
  {
    if x in after && x !in Written(g, n) {
      y := x;
    } else {
      y :| y in Written(g, n) && y in after;
      assert x in Seen(g, n) - g.constants;
      assert RunNode(g, Free, n, e)[y] == Value(n.id, Restrict(e, Seen(g, n)), y);
      assert RunNode(g, Free, n, f)[y] == Value(n.id, Restrict(f, Seen(g, n)), y);
    }
  }

  lemma {:induction false} BodyKeepsDifference(g: Graph, ps: seq<seq<Node>>, k: nat, sig: Signature, held: Env<Value>,
                                               full: Env<Value>,
                                               live: set<Name>, i: nat, x: Name)
    returns (y: Name)
    requires CallOk<Value>(g, ps, k, sig, map[]) && i <= |ps[k]| && Agree(map[], full, g.constants)
    requires x in LiveAt(g, ps[k], 0, live) && !AgreeAt(ClosedAt(g, Free, ps[k], 0, sig, held, map[]), full, x)
    ensures y in LiveAt(g, ps[k], i, live)
    ensures !AgreeAt(ClosedAt(g, Free, ps[k], i, sig, held, map[]), RunNodes(g, Free, ps[k][..i], full), y)
  {
    var p := ps[k];
    if i == 0 {
      assert p[..0] == [];
      y := x;
    } else {
      var z := BodyKeepsDifference(g, ps, k, sig, held, full, live, i - 1, x);
      y := DifferenceStep(g, ps, k, sig, held, full, live, i - 1, z);
    }
  }

  lemma DifferenceStep(g: Graph, ps: seq<seq<Node>>, k: nat, sig: Signature, held: Env<Value>, full: Env<Value>,
                       live: set<Name>, i: nat, x: Name)
    returns (y: Name)
    requires CallOk<Value>(g, ps, k, sig, map[]) && i < |ps[k]| && Agree(map[], full, g.constants)
    requires x in LiveAt(g, ps[k], i, live)
    requires !AgreeAt(ClosedAt(g, Free, ps[k], i, sig, held, map[]), RunNodes(g, Free, ps[k][..i], full), x)
    ensures y in LiveAt(g, ps[k], i + 1, live)
    ensures !AgreeAt(ClosedAt(g, Free, ps[k], i + 1, sig, held, map[]), RunNodes(g, Free, ps[k][..i + 1], full), y)
  {
    var p, none: Env<Value> := ps[k], map[];
    NextNode(g, Free, p, i, full);
    NextNode(g, Free, p, i, Restrict(none, sig.constants) + Restrict(held, sig.inputs));
    ViewsAgree(g, Free, ps, k, sig, held, full, none, i);
    y := NodeKeepsDifference(g, p[i], held, BodyAt(g, Free, p, i, sig, held, none), RunNodes(g, Free, p[..i], full),
                             LiveAt(g, p, i + 1, live), x);
  }

  /** What the partition writes is nothing the caller has. */
  ghost predicate WritesNew(g: Graph, p: seq<Node>, held: Env<Value>, full: Env<Value>)
    requires RealOk(g)
  {
    forall n | WrittenIn(g, p, n) :: !AgreeAt(held, RunNodes(g, Free, p, full), n)
  }

  /** A difference at the end of the body shows in what the caller holds. */
  lemma DifferenceShows(g: Graph, ps: seq<seq<Node>>, k: nat, sig: Signature, held: Env<Value>, full: Env<Value>,
                        n: Name)
    requires CallOk<Value>(g, ps, k, sig, map[]) && WritesNew(g, ps[k], held, full) && n in Needed(g, ps, k + 1)
    requires !AgreeAt(ClosedAt(g, Free, ps[k], |ps[k]|, sig, held, map[]), RunNodes(g, Free, ps[k], full), n)
    ensures !AgreeAt(AfterCall(g, Free, ps[k], sig, held, map[]), RunNodes(g, Free, ps[k], full), n)
  {
    if n in Returned(g, ps, k) {
      ReturnedIsClosed(g, Free, ps, k, sig, held, map[], n);
    } else {
      NotReturnedIsHeld(g, Free, ps, k, sig, held, map[], n);
    }
  }

  /** A difference that matters survives a call. */
  lemma CallKeepsDifference(g: Graph, ps: seq<seq<Node>>, k: nat, sig: Signature, held: Env<Value>, full: Env<Value>,
                            x: Name)
    returns (y: Name)
    requires CallOk<Value>(g, ps, k, sig, map[]) && WritesNew(g, ps[k], held, full)
    requires Agree(map[], full, g.constants) && x in Live(g, ps, k) && !AgreeAt(held, full, x)
    ensures y in Live(g, ps, k + 1)
    ensures !AgreeAt(AfterCall(g, Free, ps[k], sig, held, map[]), RunNodes(g, Free, ps[k], full), y)
  {
    var p := ps[k];
    LiveIsNeeded(g, ps, k, x);
    ClosedStarts(g, Free, ps, k, sig, held, map[], x);
    y := BodyKeepsDifference(g, ps, k, sig, held, full, Live(g, ps, k + 1), |p|, x);
    assert p[..|p|] == p;
    LiveIsNeeded(g, ps, k + 1, y);
    DifferenceShows(g, ps, k, sig, held, full, y);
  }

  /** Partition `k` rewrites buffer `n`, which can still reach an output, without saying so. */
  ghost predicate LosesLive(g: Graph, ps: seq<seq<Node>>, k: nat, n: Name)
    requires RealOk(g) && k < |ps|
  {
    WrittenIn(g, ps[k], n) && n in Live(g, ps, k + 1) && n !in OutputNames(ps[k]) && n !in InputNames(g, ps[k])
  }

  /** Losing a mutation that matters makes one. */
  lemma LossMakesDifference(g: Graph, ps: seq<seq<Node>>, k: nat, sig: Signature, held: Env<Value>, full: Env<Value>,
                            n: Name)
    requires CallOk<Value>(g, ps, k, sig, map[]) && WritesNew(g, ps[k], held, full) && LosesLive(g, ps, k, n)
    ensures !AgreeAt(AfterCall(g, Free, ps[k], sig, held, map[]), RunNodes(g, Free, ps[k], full), n)
  {
    LiveIsNeeded(g, ps, k + 1, n);
    UndeclaredIsLost(g, ps, k, n);
    NotReturnedIsHeld(g, Free, ps, k, sig, held, map[], n);
  }

  /** The whole graph's constants are the ones given. */
  lemma {:induction false} ConstantsStay<V>(g: Graph, sem: Sem<V>, ps: seq<seq<Node>>, sigs: seq<Signature>,
                                            constants: Env<V>,
                                            hs: seq<Env<V>>, fs: seq<Env<V>>, k: nat)
    requires SideBySide(g, sem, ps, sigs, constants, hs, fs) && k <= |ps| && Agree(constants, fs[0], g.constants)
    ensures Agree(constants, fs[k], g.constants)
    decreases k
  {
    if k > 0 {
      ConstantsStay(g, sem, ps, sigs, constants, hs, fs, k - 1);
      assert NodesAt(g, sem, ps, fs, k - 1);
      ConstantsKept(g, sem, ps, k - 1, fs[k - 1], constants);
    }
  }

  lemma DiffersNext(g: Graph, ps: seq<seq<Node>>, sigs: seq<Signature>, hs: seq<Env<Value>>, fs: seq<Env<Value>>,
                    k: nat, x: Name)
    returns (y: Name)
    requires SideBySide(g, Free, ps, sigs, map[], hs, fs) && k < |ps| && Agree(map[], fs[k], g.constants)
    requires WritesNew(g, ps[k], hs[k], fs[k]) && x in Live(g, ps, k) && !AgreeAt(hs[k], fs[k], x)
    ensures y in Live(g, ps, k + 1) && !AgreeAt(hs[k + 1], fs[k + 1], y)
  {
    assert SignatureAt(g, ps, sigs, k) && CallAt(g, Free, ps, sigs, map[], hs, k) && NodesAt(g, Free, ps, fs, k);
    y := CallKeepsDifference(g, ps, k, sigs[k], hs[k], fs[k], x);
  }

  /** A difference that matters reaches an output. */
  lemma {:induction false} DiffersToEnd(g: Graph, ps: seq<seq<Node>>, sigs: seq<Signature>, hs: seq<Env<Value>>,
                                        fs: seq<Env<Value>>, k: nat, x: Name)
    returns (y: Name)
    requires SideBySide(g, Free, ps, sigs, map[], hs, fs) && k <= |ps| && Agree(map[], fs[0], g.constants)
    requires forall i | 0 <= i < |ps| :: WritesNew(g, ps[i], hs[i], fs[i])
    requires x in Live(g, ps, k) && !AgreeAt(hs[k], fs[k], x)
    ensures y in Final(g) && !AgreeAt(hs[|ps|], fs[|ps|], y)
    decreases |ps| - k
  {
    if k == |ps| {
      y := x;
    } else {
      ConstantsStay(g, Free, ps, sigs, map[], hs, fs, k);
      var z := DiffersNext(g, ps, sigs, hs, fs, k, x);
      y := DiffersToEnd(g, ps, sigs, hs, fs, k + 1, z);
    }
  }

  lemma LossShows(g: Graph, ps: seq<seq<Node>>, sigs: seq<Signature>, hs: seq<Env<Value>>, fs: seq<Env<Value>>, k: nat,
                  n: Name)
    requires SideBySide(g, Free, ps, sigs, map[], hs, fs) && k < |ps| && LosesLive(g, ps, k, n)
    requires WritesNew(g, ps[k], hs[k], fs[k])
    ensures n in Live(g, ps, k + 1) && !AgreeAt(hs[k + 1], fs[k + 1], n)
  {
    assert SignatureAt(g, ps, sigs, k) && CallAt(g, Free, ps, sigs, map[], hs, k) && NodesAt(g, Free, ps, fs, k);
    LossMakesDifference(g, ps, k, sigs[k], hs[k], fs[k], n);
  }

  /** A lost mutation that matters shows in an output. */
  lemma LossReachesEnd(g: Graph, ps: seq<seq<Node>>, sigs: seq<Signature>, hs: seq<Env<Value>>, fs: seq<Env<Value>>,
                       k: nat, n: Name)
    returns (y: Name)
    requires SideBySide(g, Free, ps, sigs, map[], hs, fs) && k < |ps| && LosesLive(g, ps, k, n)
    requires forall i | 0 <= i < |ps| :: WritesNew(g, ps[i], hs[i], fs[i])
    requires Agree(map[], fs[0], g.constants)
    ensures y in Final(g) && !AgreeAt(hs[|ps|], fs[|ps|], y)
  {
    LossShows(g, ps, sigs, hs, fs, k, n);
    y := DiffersToEnd(g, ps, sigs, hs, fs, k + 1, n);
  }

  // ----- The theorem

  /** For every semantics and all inputs, the partitions give the graph's outputs. */
  ghost predicate OutputsAlwaysEqual(g: Graph, ps: seq<seq<Node>>, skips: seq<bool>)
    requires RealOk(g) && |ps| == |skips|
  {
    forall sem: Sem<Value>, inputs: Env<Value>, constants: Env<Value> | EnvsOk(g, inputs, constants) ::
      OutputsEqual(g, sem, ps, skips, inputs, constants)
  }

  ghost predicate OutputsEqual<V>(g: Graph, sem: Sem<V>, ps: seq<seq<Node>>, skips: seq<bool>, inputs: Env<V>,
                                  constants: Env<V>)
    requires RealOk(g) && |ps| == |skips|
  {
    Agree(Held(g, sem, ps, AllSignatures(g, ps, skips), |ps|, inputs, constants),
          RunNodes(g, sem, Flat(ps, |ps|), inputs + constants), Final(g))
  }

  lemma DeclaredGivesOutputs<V>(g: Graph, sem: Sem<V>, ps: seq<seq<Node>>, skips: seq<bool>, inputs: Env<V>,
                                constants: Env<V>)
    requires ScheduleOk(g, ps) && |ps| == |skips| && EnvsOk(g, inputs, constants)
    requires forall k | 0 <= k < |ps| :: LiveMutationsDeclared(g, ps, k)
    ensures OutputsEqual(g, sem, ps, skips, inputs, constants)
  {
    var sigs, hs, fs := BothRuns(g, sem, ps, skips, inputs, constants);
    LiveStart(g, ps, inputs, constants);
    assert hs[0] == inputs && fs[0] == inputs + constants;
    AgreeToEnd(g, sem, ps, sigs, constants, hs, fs, 0);
  }

  lemma LossShowsInOutputs(g: Graph, ps: seq<seq<Node>>, skips: seq<bool>, k: nat, n: Name)
    requires ScheduleOk(g, ps) && IdsDiffer(ps) && k < |ps| == |skips| && LosesLive(g, ps, k, n)
    ensures !OutputsEqual<Value>(g, Free, ps, skips, map[], map[])
  {
    var sigs, hs, fs := BothRuns<Value>(g, Free, ps, skips, map[], map[]);
    forall i | 0 <= i < |ps| ensures WritesNew(g, ps[i], hs[i], fs[i]) {
      AllNew(g, ps, sigs, i, hs[i], fs[i]);
    }
    assert fs[0] == map[];
    var y := LossReachesEnd(g, ps, sigs, hs, fs, k, n);
  }

  lemma AllNew(g: Graph, ps: seq<seq<Node>>, sigs: seq<Signature>, k: nat, held: Env<Value>, full: Env<Value>)
    requires RealOk(g) && IdsDiffer(ps) && k < |ps| == |sigs| && held == Held(g, Free, ps, sigs, k, map[], map[])
    ensures WritesNew(g, ps[k], held, full)
  {
    forall n | WrittenIn(g, ps[k], n) ensures !AgreeAt(held, RunNodes(g, Free, ps[k], full), n) {
      WrittenIsNew(g, ps, sigs, k, full, n);
    }
  }

  lemma SomeLost(g: Graph, ps: seq<seq<Node>>, k: nat) returns (n: Name)
    requires RealOk(g) && k < |ps| && !LiveMutationsDeclared(g, ps, k)
    ensures LosesLive(g, ps, k, n)
  {
    var x :| x in OutputNames(ps[k]) && !IsNone(g, x) && Real(g, x) in Live(g, ps, k + 1)
             && Real(g, x) !in OutputNames(ps[k]) && Real(g, x) !in InputNames(g, ps[k]);
    n := Real(g, x);
  }

  /** Under the scheduler's other guarantees, the partitions give the graph's outputs for every semantics and
      all inputs if and only if every partition declares its mutations of buffers that can still reach an
      output. */
  lemma OutputsExactly(g: Graph, ps: seq<seq<Node>>, skips: seq<bool>)
    requires ScheduleOk(g, ps) && IdsDiffer(ps) && |ps| == |skips|
    ensures OutputsAlwaysEqual(g, ps, skips) <==> forall k | 0 <= k < |ps| :: LiveMutationsDeclared(g, ps, k)
  {
    if k :| 0 <= k < |ps| && !LiveMutationsDeclared(g, ps, k) {
      var n := SomeLost(g, ps, k);
      LossShowsInOutputs(g, ps, skips, k, n);
      assert EnvsOk<Value>(g, map[], map[]);
    } else {
      AllOutputsEqual(g, ps, skips);
    }
  }

  lemma AllOutputsEqual(g: Graph, ps: seq<seq<Node>>, skips: seq<bool>)
    requires ScheduleOk(g, ps) && |ps| == |skips| && forall k | 0 <= k < |ps| :: LiveMutationsDeclared(g, ps, k)
    ensures OutputsAlwaysEqual(g, ps, skips)
  {
    forall sem: Sem<Value>, inputs: Env<Value>, constants: Env<Value> | EnvsOk(g, inputs, constants)
      ensures OutputsEqual(g, sem, ps, skips, inputs, constants)
    {
      DeclaredGivesOutputs(g, sem, ps, skips, inputs, constants);
    }
  }
}
