/** Running partitions as closed functions means the same as running the graph. */
module GraphMeaning {
  import opened GraphPartition

  /** What a node computes for each buffer it writes, from the buffers it sees: any function at all. */
  type Sem<!V> = (nat, map<Name, V>, Name) -> V

  type Env<V> = map<Name, V>

  function Restrict<V>(env: Env<V>, names: set<Name>): Env<V> {
    map n | n in env && n in names :: env[n]
  }

  /** The buffers a node sees: those behind the names it uses and does not itself produce. */
  function Seen(g: Graph, n: Node): set<Name>
    requires RealOk(g)
  {
    set x | x in n.uses - n.outs && !IsNone(g, x) :: Real(g, x)
  }

  /** The buffers a node writes. */
  function Written(g: Graph, n: Node): set<Name>
    requires RealOk(g)
  {
    set x | x in n.outs && !IsNone(g, x) :: Real(g, x)
  }

  function RunNode<V>(g: Graph, sem: Sem<V>, n: Node, env: Env<V>): Env<V>
    requires RealOk(g)
  {
    env + map x | x in Written(g, n) :: sem(n.id, Restrict(env, Seen(g, n)), x)
  }

  function RunNodes<V>(g: Graph, sem: Sem<V>, p: seq<Node>, env: Env<V>): Env<V>
    requires RealOk(g)
  {
    if p == [] then env else RunNode(g, sem, p[|p| - 1], RunNodes(g, sem, p[..|p| - 1], env))
  }

  // ----- The two ways to run a graph

  /** The nodes of the first `k` partitions, in order. */
  function Flat(ps: seq<seq<Node>>, k: nat): seq<Node>
    requires k <= |ps|
  {
    if k == 0 then [] else Flat(ps, k - 1) + ps[k - 1]
  }

  /** One call of a closed partition: it gets its inputs and constants, and gives its outputs. */
  function Call<V>(g: Graph, sem: Sem<V>, p: seq<Node>, sig: Signature, held: Env<V>,
                   constants: Env<V>): (outputs: Env<V>)
    requires RealOk(g)
  {
    Restrict(RunNodes(g, sem, p, Restrict(constants, sig.constants) + Restrict(held, sig.inputs)), sig.outputs)
  }

  /** The caller drops what it handed over to be freed and takes what it is given. */
  function AfterCall<V>(g: Graph, sem: Sem<V>, p: seq<Node>, sig: Signature, held: Env<V>, constants: Env<V>): Env<V>
    requires RealOk(g)
  {
    (held - sig.deallocated - sig.outputs) + Call(g, sem, p, sig, held, constants)
  }

  /** What the caller holds after the first `k` calls. */
  function Held<V>(g: Graph, sem: Sem<V>, ps: seq<seq<Node>>, sigs: seq<Signature>, k: nat, inputs: Env<V>,
                   constants: Env<V>): Env<V>
    requires RealOk(g) && k <= |ps| == |sigs|
  {
    if k == 0 then inputs
    else AfterCall(g, sem, ps[k - 1], sigs[k - 1], Held(g, sem, ps, sigs, k - 1, inputs, constants), constants)
  }

  // ----- What the scheduler guarantees

  /** Names of mutations belong to unallocated mutation outputs; names of outputs and of freed buffers
      are real; constants are never written. */
  ghost predicate NamesOk(g: Graph, ps: seq<seq<Node>>) {
    && RealOk(g) && g.known !! g.constants
    && (forall x {:trigger g.realName[x]} | x in g.realName ::
          x in g.buffers && g.buffers[x].noneLayout && g.buffers[x].isMutation)
    && (forall x | x in g.outputs :: x !in g.realName)
    && forall k | 0 <= k < |ps| :: PartitionNamesOk(g, ps[k])
  }

  ghost predicate PartitionNamesOk(g: Graph, p: seq<Node>) {
    && (forall x | x in FreedNames(p) :: x !in g.realName)
    && (forall x | x in OutputNames(p) :: Real(g, x) in g.known)
    && (forall x | x in UsedNames(p) :: Real(g, x) in g.known + g.constants)
  }

  /** Inside a partition, names are used after they are produced. */
  ghost predicate InOrder(p: seq<Node>) {
    forall j | 0 <= j < |p| :: p[j].uses * OutputNames(p) <= p[j].outs + OutputNames(p[..j])
  }

  /** The buffers the caller must hold before call `k`. */
  ghost function Needed(g: Graph, ps: seq<seq<Node>>, k: nat): set<Name>
    requires RealOk(g) && k <= |ps|
  {
    set n | n in Unmet(g, ps, k) && n in g.known && !IsNone(g, n)
  }

  /** A partition that mutates a buffer from outside which is needed after it also uses that buffer under
      some name from outside. */
  ghost predicate MutationsDeclared(g: Graph, ps: seq<seq<Node>>, k: nat)
    requires RealOk(g) && k < |ps|
  {
    forall x | x in OutputNames(ps[k]) && !IsNone(g, x) && Real(g, x) in Needed(g, ps, k + 1) ::
      Real(g, x) in OutputNames(ps[k]) || Real(g, x) in InputNames(g, ps[k])
  }

  /** A freed buffer is no graph output and no later partition's input. */
  ghost predicate FreedForGood(g: Graph, ps: seq<seq<Node>>, k: nat)
    requires RealOk(g) && k < |ps|
  {
    && FreedNames(ps[k]) !! g.outputs
    && forall i | k < i < |ps| :: FreedNames(ps[k]) !! InputNames(g, ps[i])
  }

  /** What the scheduler guarantees in any case. */
  ghost predicate ScheduleOk(g: Graph, ps: seq<seq<Node>>) {
    && NamesOk(g, ps)
    && (forall k | 0 <= k < |ps| :: InOrder(ps[k]))
    && (forall k | 0 <= k < |ps| :: FreedForGood(g, ps, k))
  }

  ghost predicate GraphOk(g: Graph, ps: seq<seq<Node>>) {
    ScheduleOk(g, ps) && forall k | 0 <= k < |ps| :: MutationsDeclared(g, ps, k)
  }

  // ----- Agreement

  ghost predicate AgreeAt<V>(e: Env<V>, f: Env<V>, n: Name) {
    (n in e <==> n in f) && (n in e ==> e[n] == f[n])
  }

  ghost predicate Agree<V>(e: Env<V>, f: Env<V>, names: set<Name>) {
    forall n | n in names :: AgreeAt(e, f, n)
  }

  /** A node computes the same from two environments that agree on what it sees. */
  lemma NodeAgrees<V>(g: Graph, sem: Sem<V>, n: Node, e: Env<V>, f: Env<V>, names: set<Name>)
    requires RealOk(g) && Agree(e, f, names) && Seen(g, n) <= names
    ensures Agree(RunNode(g, sem, n, e), RunNode(g, sem, n, f), names + Written(g, n))
  {
    assert Restrict(e, Seen(g, n)) == Restrict(f, Seen(g, n)) by {
      forall x | x in Seen(g, n) ensures AgreeAt(e, f, x) { }
    }
    forall x | x in names + Written(g, n) ensures AgreeAt(RunNode(g, sem, n, e), RunNode(g, sem, n, f), x) {
      if x !in Written(g, n) { assert AgreeAt(e, f, x); }
    }
  }

  /** The names the body of a partition may rely on after `j` nodes. */
  ghost function Relied(g: Graph, p: seq<Node>, j: nat): set<Name>
    requires RealOk(g) && j <= |p|
  {
    (set x | x in InputNames(g, p) && !IsNone(g, x)) + (set x | x in OutputNames(p[..j]) && !IsNone(g, x) :: Real(g, x))
  }

  /** A name of a mutation is unallocated exactly when its buffer is. */
  lemma NoneOfReal(g: Graph, ps: seq<seq<Node>>, x: Name)
    requires NamesOk(g, ps)
    ensures IsNone(g, Real(g, x)) == IsNone(g, x)
  {
    if x in g.realName { assert g.realName[x] !in g.realName; }
  }

  /** Everything a node of the partition sees can be relied on when it runs. */
  lemma SeenIsRelied(g: Graph, ps: seq<seq<Node>>, p: seq<Node>, j: nat)
    requires NamesOk(g, ps) && InOrder(p) && j < |p|
    ensures Seen(g, p[j]) <= Relied(g, p, j)
  {
    forall n | n in Seen(g, p[j]) ensures n in Relied(g, p, j) {
      var x :| x in p[j].uses - p[j].outs && !IsNone(g, x) && n == Real(g, x);
      NoneOfReal(g, ps, x);
      assert x in UsedNames(p);
      if x in OutputNames(p) {
        assert x in p[j].uses * OutputNames(p);
        assert x in OutputNames(p[..j]);
      }
    }
  }

  lemma ReliedGrows(g: Graph, p: seq<Node>, j: nat)
    requires RealOk(g) && j < |p|
    ensures Relied(g, p, j + 1) == Relied(g, p, j) + Written(g, p[j])
  {
    assert p[..j + 1] == p[..j] + [p[j]];
    OneMoreNode(p[..j], p[j]);
  }

  /** The body of a partition, on what it is given, agrees with the whole graph. */
  lemma {:induction false} BodyAgrees<V>(g: Graph, sem: Sem<V>, ps: seq<seq<Node>>, p: seq<Node>, j: nat, e: Env<V>,
                                         f: Env<V>)
    requires NamesOk(g, ps) && InOrder(p) && j <= |p|
    requires Agree(e, f, Relied(g, p, 0))
    ensures Agree(RunNodes(g, sem, p[..j], e), RunNodes(g, sem, p[..j], f), Relied(g, p, j))
  {
    if j > 0 {
      BodyAgrees(g, sem, ps, p, j - 1, e, f);
      assert p[..j][..j - 1] == p[..j - 1];
      SeenIsRelied(g, ps, p, j - 1);
      ReliedGrows(g, p, j - 1);
      NodeAgrees(g, sem, p[j - 1], RunNodes(g, sem, p[..j - 1], e), RunNodes(g, sem, p[..j - 1], f),
                 Relied(g, p, j - 1));
    }
  }

  /** A partition writes only the buffers behind its outputs. */
  lemma {:induction false} BodyWrites<V>(g: Graph, sem: Sem<V>, p: seq<Node>, e: Env<V>, n: Name)
    requires RealOk(g) && forall x | x in OutputNames(p) && !IsNone(g, x) :: Real(g, x) != n
    ensures AgreeAt(RunNodes(g, sem, p, e), e, n)
  {
    if p != [] {
      var q, last := p[..|p| - 1], p[|p| - 1];
      assert p == q + [last];
      OneMoreNode(q, last);
      BodyWrites(g, sem, q, e, n);
      forall x | x in Written(g, last) ensures x != n { }
    }
  }

  // ----- The theorem

  lemma {:induction false} RunAppends<V>(g: Graph, sem: Sem<V>, p: seq<Node>, q: seq<Node>, e: Env<V>)
    requires RealOk(g)
    ensures RunNodes(g, sem, p + q, e) == RunNodes(g, sem, q, RunNodes(g, sem, p, e))
  {
    if q == [] {
      assert p + q == p;
    } else {
      assert (p + q)[..|p + q| - 1] == p + q[..|q| - 1];
      RunAppends(g, sem, p, q[..|q| - 1], e);
    }
  }

  /** Unmet names are names of buffers, not of mutations. */
  lemma {:induction false} UnmetIsReal(g: Graph, ps: seq<seq<Node>>, k: nat, n: Name)
    requires NamesOk(g, ps) && k <= |ps| && n in Unmet(g, ps, k)
    ensures Real(g, n) == n
    decreases |ps| - k
  {
    if k < |ps| {
      assert PartitionNamesOk(g, ps[k]);
      if n in InputNames(g, ps[k]) { InputIsReal(g, ps[k], n); } else { UnmetIsReal(g, ps, k + 1, n); }
    }
  }

  lemma InputIsReal(g: Graph, p: seq<Node>, n: Name)
    requires RealOk(g) && PartitionNamesOk(g, p) && n in InputNames(g, p)
    ensures Real(g, n) == n && n in g.known + g.constants
  {
  }

  /** What a partition frees is not unmet after it. */
  lemma FreedIsMet(g: Graph, ps: seq<seq<Node>>, k: nat, n: Name)
    requires ScheduleOk(g, ps) && k < |ps| && n in Unmet(g, ps, k + 1)
    ensures n !in FreedNames(ps[k])
  {
    UnmetIsNeeded(g, ps, k + 1, n);
    assert FreedForGood(g, ps, k);
  }

  /** What a partition is given agrees with the whole graph on its inputs. */
  lemma GivenAgrees<V>(g: Graph, ps: seq<seq<Node>>, k: nat, sig: Signature, held: Env<V>, full: Env<V>,
                       constants: Env<V>)
    requires GraphOk(g, ps) && k < |ps| && constants.Keys <= g.constants
    requires sig == SignatureOf(g, ps[k], Unmet(g, ps, k + 1), sig.skipCudagraph)
    requires Agree(held, full, Needed(g, ps, k)) && Agree(constants, full, g.constants)
    ensures Agree(Restrict(constants, sig.constants) + Restrict(held, sig.inputs), full, Relied(g, ps[k], 0))
  {
    assert ps[k][..0] == [];
    assert PartitionNamesOk(g, ps[k]);
    forall n | n in InputNames(g, ps[k]) && !IsNone(g, n)
      ensures AgreeAt(Restrict(constants, sig.constants) + Restrict(held, sig.inputs), full, n)
    {
      InputIsReal(g, ps[k], n);
      if n in g.known {
        assert n in Needed(g, ps, k);
        assert AgreeAt(held, full, n);
      } else {
        assert AgreeAt(constants, full, n);
      }
    }
  }

  /** A needed name that the partition returns is one its body can be relied on for. */
  lemma ReturnedIsRelied(g: Graph, ps: seq<seq<Node>>, k: nat, n: Name)
    requires GraphOk(g, ps) && k < |ps| && n in Needed(g, ps, k + 1) && n in Returned(g, ps, k)
    ensures n in Relied(g, ps[k], |ps[k]|)
  {
    var p := ps[k];
    assert p[..|p|] == p && PartitionNamesOk(g, p);
    var x :| x in (OutputNames(p) * Unmet(g, ps, k + 1)) + ((InputNames(g, p) * g.known) - FreedNames(p))
             && n == Real(g, x);
    if x in InputNames(g, p) { InputIsReal(g, p, x); } else { UnmetIsReal(g, ps, k + 1, x); }
  }

  /** A needed name that the partition does not return was needed before, and the partition leaves it alone. */
  lemma NotReturnedIsKept(g: Graph, ps: seq<seq<Node>>, k: nat, n: Name)
    requires GraphOk(g, ps) && k < |ps| && n in Needed(g, ps, k + 1) && n !in Returned(g, ps, k)
    ensures n in Needed(g, ps, k) && n !in FreedNames(ps[k])
    ensures forall x | x in OutputNames(ps[k]) && !IsNone(g, x) :: Real(g, x) != n
  {
    var p := ps[k];
    UnmetIsReal(g, ps, k + 1, n);
    FreedIsMet(g, ps, k, n);
    var returned := Returned(g, ps, k);
    assert n in OutputNames(p) ==> Real(g, n) in returned;
    assert n in InputNames(g, p) ==> Real(g, n) in returned;
    assert MutationsDeclared(g, ps, k);
  }

  /** One call keeps the caller's buffers in step with the whole graph. */
  lemma CallAgrees<V>(g: Graph, sem: Sem<V>, ps: seq<seq<Node>>, k: nat, sig: Signature, held: Env<V>, full: Env<V>,
                      constants: Env<V>)
    requires GraphOk(g, ps) && k < |ps| && constants.Keys <= g.constants
    requires sig == SignatureOf(g, ps[k], Unmet(g, ps, k + 1), sig.skipCudagraph)
    requires Agree(held, full, Needed(g, ps, k)) && Agree(constants, full, g.constants)
    ensures Agree(AfterCall(g, sem, ps[k], sig, held, constants), RunNodes(g, sem, ps[k], full), Needed(g, ps, k + 1))
  {
    var p := ps[k];
    var given := Restrict(constants, sig.constants) + Restrict(held, sig.inputs);
    GivenAgrees(g, ps, k, sig, held, full, constants);
    assert p[..|p|] == p && InOrder(p);
    BodyAgrees(g, sem, ps, p, |p|, given, full);
    forall n | n in Needed(g, ps, k + 1)
      ensures AgreeAt(AfterCall(g, sem, p, sig, held, constants), RunNodes(g, sem, p, full), n)
    {
      if n in Returned(g, ps, k) {
        ReturnedIsRelied(g, ps, k, n);
        assert n in sig.outputs;
        assert AgreeAt(RunNodes(g, sem, p, given), RunNodes(g, sem, p, full), n);
      } else {
        NotReturnedIsKept(g, ps, k, n);
        BodyWrites(g, sem, p, full, n);
        assert AgreeAt(held, full, n);
        assert n !in sig.outputs && n !in sig.deallocated;
      }
    }
  }

  /** Constants stay what they are. */
  lemma ConstantsKept<V>(g: Graph, sem: Sem<V>, ps: seq<seq<Node>>, k: nat, full: Env<V>, constants: Env<V>)
    requires NamesOk(g, ps) && k < |ps| && Agree(constants, full, g.constants)
    ensures Agree(constants, RunNodes(g, sem, ps[k], full), g.constants)
  {
    forall n | n in g.constants ensures AgreeAt(constants, RunNodes(g, sem, ps[k], full), n) {
      assert PartitionNamesOk(g, ps[k]);
      BodyWrites(g, sem, ps[k], full, n);
      assert AgreeAt(constants, full, n);
    }
  }

  /** The caller's buffers and the whole graph's, before call `k`. */
  ghost predicate InStep<V>(g: Graph, ps: seq<seq<Node>>, k: nat, held: Env<V>, full: Env<V>, constants: Env<V>)
    requires RealOk(g) && k <= |ps|
  {
    Agree(held, full, Needed(g, ps, k)) && Agree(constants, full, g.constants)
  }

  lemma CallKeepsStep<V>(g: Graph, sem: Sem<V>, ps: seq<seq<Node>>, k: nat, sig: Signature, held: Env<V>, full: Env<V>,
                         constants: Env<V>)
    requires GraphOk(g, ps) && k < |ps| && constants.Keys <= g.constants
    requires sig == SignatureOf(g, ps[k], Unmet(g, ps, k + 1), sig.skipCudagraph)
    requires InStep(g, ps, k, held, full, constants)
    ensures InStep(g, ps, k + 1, AfterCall(g, sem, ps[k], sig, held, constants), RunNodes(g, sem, ps[k], full),
                   constants)
  {
    CallAgrees(g, sem, ps, k, sig, held, full, constants);
    ConstantsKept(g, sem, ps, k, full, constants);
  }

  lemma BeforeAnyCall<V>(g: Graph, ps: seq<seq<Node>>, inputs: Env<V>, constants: Env<V>)
    requires GraphOk(g, ps) && inputs.Keys <= g.known && constants.Keys <= g.constants
    ensures InStep(g, ps, 0, inputs, inputs + constants, constants)
  {
  }

  ghost predicate InStepAt<V>(g: Graph, sem: Sem<V>, ps: seq<seq<Node>>, skips: seq<bool>, k: nat, inputs: Env<V>,
                              constants: Env<V>)
    requires RealOk(g) && k <= |ps| == |skips|
  {
    InStep(g, ps, k, Held(g, sem, ps, AllSignatures(g, ps, skips), k, inputs, constants),
           RunNodes(g, sem, Flat(ps, k), inputs + constants), constants)
  }

  /** After any number of calls the caller holds, for every name still needed, what the graph run node
      by node has computed. */
  lemma HeldAgrees<V>(g: Graph, sem: Sem<V>, ps: seq<seq<Node>>, skips: seq<bool>, k: nat,
                      inputs: Env<V>, constants: Env<V>)
    requires GraphOk(g, ps) && k <= |ps| == |skips|
    requires inputs.Keys <= g.known && constants.Keys <= g.constants
    ensures InStepAt(g, sem, ps, skips, k, inputs, constants)
  {
    var held, full := BothRuns(g, sem, ps, skips, k, inputs, constants);
  }

  /** Both ways to run, side by side. */
  lemma {:induction false} BothRuns<V>(g: Graph, sem: Sem<V>, ps: seq<seq<Node>>, skips: seq<bool>, k: nat,
                                       inputs: Env<V>, constants: Env<V>)
    returns (held: Env<V>, full: Env<V>)
    requires GraphOk(g, ps) && k <= |ps| == |skips|
    requires inputs.Keys <= g.known && constants.Keys <= g.constants
    ensures held == Held(g, sem, ps, AllSignatures(g, ps, skips), k, inputs, constants)
    ensures full == RunNodes(g, sem, Flat(ps, k), inputs + constants)
    ensures InStep(g, ps, k, held, full, constants)
  {
    if k == 0 {
      held, full := inputs, inputs + constants;
      BeforeAnyCall(g, ps, inputs, constants);
    } else {
      var sigs := AllSignatures(g, ps, skips);
      var h, f := BothRuns(g, sem, ps, skips, k - 1, inputs, constants);
      SignatureIs(g, ps, skips, k - 1);
      CallKeepsStep(g, sem, ps, k - 1, sigs[k - 1], h, f, constants);
      OneMoreCall(g, sem, ps, sigs, k, inputs, constants);
      held, full := AfterCall(g, sem, ps[k - 1], sigs[k - 1], h, constants), RunNodes(g, sem, ps[k - 1], f);
    }
  }

  lemma SignatureIs(g: Graph, ps: seq<seq<Node>>, skips: seq<bool>, k: nat)
    requires RealOk(g) && k < |ps| == |skips|
    ensures var sig := AllSignatures(g, ps, skips)[k];
            sig == SignatureOf(g, ps[k], Unmet(g, ps, k + 1), sig.skipCudagraph)
  {
  }

  lemma OneMoreCall<V>(g: Graph, sem: Sem<V>, ps: seq<seq<Node>>, sigs: seq<Signature>, k: nat, inputs: Env<V>,
                       constants: Env<V>)
    requires RealOk(g) && 0 < k <= |ps| == |sigs|
    ensures Held(g, sem, ps, sigs, k, inputs, constants)
            == AfterCall(g, sem, ps[k - 1], sigs[k - 1], Held(g, sem, ps, sigs, k - 1, inputs, constants), constants)
    ensures RunNodes(g, sem, Flat(ps, k), inputs + constants)
            == RunNodes(g, sem, ps[k - 1], RunNodes(g, sem, Flat(ps, k - 1), inputs + constants))
  {
    RunAppends(g, sem, Flat(ps, k - 1), ps[k - 1], inputs + constants);
  }

  /** Running the partitions as closed functions gives the graph's outputs. */
  lemma PartitionsPreserveMeaning<V>(g: Graph, sem: Sem<V>, ps: seq<seq<Node>>, skips: seq<bool>, inputs: Env<V>,
                                     constants: Env<V>, n: Name)
    requires GraphOk(g, ps) && |ps| == |skips| && inputs.Keys <= g.known && constants.Keys <= g.constants
    requires n in g.outputs && n in g.known && !IsNone(g, n)
    ensures AgreeAt(Held(g, sem, ps, AllSignatures(g, ps, skips), |ps|, inputs, constants),
                    RunNodes(g, sem, Flat(ps, |ps|), inputs + constants), n)
  {
    HeldAgrees(g, sem, ps, skips, |ps|, inputs, constants);
    assert n in Needed(g, ps, |ps|);
  }

  /** And the reverse pass does not fail. */
  lemma OutputsAreKnown(g: Graph, ps: seq<seq<Node>>, skips: seq<bool>, k: nat)
    requires NamesOk(g, ps) && k < |ps| == |skips|
    ensures AllSignatures(g, ps, skips)[k].outputs <= g.known
  {
    assert PartitionNamesOk(g, ps[k]);
    forall n | n in Returned(g, ps, k) ensures n in g.known {
      var p := ps[k];
      var x :| x in (OutputNames(p) * Unmet(g, ps, k + 1)) + ((InputNames(g, p) * g.known) - FreedNames(p))
               && n == Real(g, x);
      if x in InputNames(g, p) { InputIsReal(g, p, x); }
    }
  }

  // ----- Without declared mutations

  ghost predicate EnvsOk<V>(g: Graph, inputs: Env<V>, constants: Env<V>) {
    inputs.Keys <= g.known && constants.Keys <= g.constants
  }

  /** For one semantics and one set of inputs, the caller is in step with the whole graph before every call
      and at the end. */
  ghost predicate StaysInStep<V>(g: Graph, sem: Sem<V>, ps: seq<seq<Node>>, skips: seq<bool>, inputs: Env<V>,
                                 constants: Env<V>)
    requires RealOk(g) && |ps| == |skips|
  {
    forall k | 0 <= k <= |ps| :: InStepAt(g, sem, ps, skips, k, inputs, constants)
  }

  /** Nodes of different partitions have different numbers. */
  ghost predicate IdsDiffer(ps: seq<seq<Node>>) {
    forall i, j, m, n | 0 <= i < j < |ps| && 0 <= m < |ps[i]| && 0 <= n < |ps[j]| :: ps[i][m].id != ps[j][n].id
  }

  /** Every node writes its own number, plus one. */
  function Stamp(id: nat, view: Env<nat>, x: Name): nat { id + 1 }

  ghost predicate StampOf(p: seq<Node>, v: nat) { exists j | 0 <= j < |p| :: p[j].id + 1 == v }

  /** A buffer a partition writes ends with the number of one of its nodes. */
  lemma {:induction false} StampsWritten(g: Graph, p: seq<Node>, e: Env<nat>, n: Name)
    requires RealOk(g) && exists x :: x in OutputNames(p) && !IsNone(g, x) && Real(g, x) == n
    ensures n in RunNodes(g, Stamp, p, e) && StampOf(p, RunNodes(g, Stamp, p, e)[n])
  {
    var q, last := p[..|p| - 1], p[|p| - 1];
    assert p == q + [last];
    OneMoreNode(q, last);
    var after := RunNodes(g, Stamp, p, e);
    if n in Written(g, last) {
      assert after[n] == last.id + 1;
      assert p[|p| - 1].id + 1 == after[n];
    } else {
      StampsWritten(g, q, e, n);
      var j :| 0 <= j < |q| && q[j].id + 1 == RunNodes(g, Stamp, q, e)[n];
      assert p[j].id + 1 == after[n];
    }
  }

  /** Values that are in no environment and that no node writes appear nowhere. */
  lemma {:induction false} ValuesStay(g: Graph, p: seq<Node>, e: Env<nat>, ok: nat -> bool)
    requires RealOk(g) && (forall n | n in e :: ok(e[n])) && forall j | 0 <= j < |p| :: ok(p[j].id + 1)
    ensures forall n | n in RunNodes(g, Stamp, p, e) :: ok(RunNodes(g, Stamp, p, e)[n])
  {
    if p != [] {
      var q, last := p[..|p| - 1], p[|p| - 1];
      assert forall j | 0 <= j < |q| :: q[j] == p[j];
      ValuesStay(g, q, e, ok);
      ValuesWritten(g, last, RunNodes(g, Stamp, q, e), ok);
      assert RunNodes(g, Stamp, p, e) == RunNode(g, Stamp, last, RunNodes(g, Stamp, q, e));
    }
  }

  lemma ValuesWritten(g: Graph, node: Node, e: Env<nat>, ok: nat -> bool)
    requires RealOk(g) && (forall n | n in e :: ok(e[n])) && ok(node.id + 1)
    ensures forall n | n in RunNode(g, Stamp, node, e) :: ok(RunNode(g, Stamp, node, e)[n])
  {
  }

  lemma {:induction false} HeldValues(g: Graph, ps: seq<seq<Node>>, sigs: seq<Signature>, k: nat, ok: nat -> bool)
    requires RealOk(g) && k <= |ps| == |sigs| && forall i, j | 0 <= i < k && 0 <= j < |ps[i]| :: ok(ps[i][j].id + 1)
    ensures forall n | n in Held(g, Stamp, ps, sigs, k, map[], map[]) ::
              ok(Held(g, Stamp, ps, sigs, k, map[], map[])[n])
  {
    if k > 0 {
      var none: Env<nat> := map[];
      HeldValues(g, ps, sigs, k - 1, ok);
      var held := Held(g, Stamp, ps, sigs, k - 1, none, none);
      var given := Restrict(none, sigs[k - 1].constants) + Restrict(held, sigs[k - 1].inputs);
      ValuesStay(g, ps[k - 1], given, ok);
      assert Held(g, Stamp, ps, sigs, k, none, none) == AfterCall(g, Stamp, ps[k - 1], sigs[k - 1], held, none);
    }
  }

  /** An undeclared mutation of a needed buffer is never returned, so the caller keeps the old contents. */
  lemma UndeclaredIsLost(g: Graph, ps: seq<seq<Node>>, k: nat, n: Name)
    requires ScheduleOk(g, ps) && k < |ps| && n in Needed(g, ps, k + 1)
    requires n !in OutputNames(ps[k]) && n !in InputNames(g, ps[k])
    ensures n !in Returned(g, ps, k)
  {
    UnmetIsReal(g, ps, k + 1, n);
    forall x | x in (OutputNames(ps[k]) * Unmet(g, ps, k + 1)) + ((InputNames(g, ps[k]) * g.known) - FreedNames(ps[k]))
      ensures Real(g, x) != n
    {
      assert PartitionNamesOk(g, ps[k]);
      if x in InputNames(g, ps[k]) { InputIsReal(g, ps[k], x); } else { UnmetIsReal(g, ps, k + 1, x); }
    }
  }

  /** Before the call, nothing the caller holds carries a number of the partition to come. */
  lemma HeldBefore(g: Graph, ps: seq<seq<Node>>, sigs: seq<Signature>, k: nat, n: Name)
    requires RealOk(g) && IdsDiffer(ps) && k < |ps| == |sigs| && n in Held(g, Stamp, ps, sigs, k, map[], map[])
    ensures !StampOf(ps[k], Held(g, Stamp, ps, sigs, k, map[], map[])[n])
  {
    var ok := (v: nat) => !StampOf(ps[k], v);
    forall i, j | 0 <= i < k && 0 <= j < |ps[i]| ensures ok(ps[i][j].id + 1) {
      forall m | 0 <= m < |ps[k]| ensures ps[k][m].id + 1 != ps[i][j].id + 1 { assert ps[i][j].id != ps[k][m].id; }
    }
    HeldValues(g, ps, sigs, k, ok);
  }

  lemma StampsDiffer(p: seq<Node>, before: Env<nat>, held: Env<nat>, full: Env<nat>, n: Name)
    requires n in full && StampOf(p, full[n]) && AgreeAt(held, before, n) && (n in before ==> !StampOf(p, before[n]))
    ensures !AgreeAt(held, full, n)
  {
  }

  /** With numbered writes the caller is out of step right after such a partition. */
  lemma UndeclaredOutOfStep(g: Graph, ps: seq<seq<Node>>, skips: seq<bool>, k: nat)
    requires ScheduleOk(g, ps) && IdsDiffer(ps) && k < |ps| == |skips| && !MutationsDeclared(g, ps, k)
    ensures !InStepAt(g, Stamp, ps, skips, k + 1, map[], map[])
  {
    var x :| x in OutputNames(ps[k]) && !IsNone(g, x) && Real(g, x) in Needed(g, ps, k + 1)
             && Real(g, x) !in OutputNames(ps[k]) && Real(g, x) !in InputNames(g, ps[k]);
    var sigs := AllSignatures(g, ps, skips);
    SignatureIs(g, ps, skips, k);
    UndeclaredIsLost(g, ps, k, Real(g, x));
    LostMutation(g, ps, sigs, k, x);
  }

  lemma LostMutation(g: Graph, ps: seq<seq<Node>>, sigs: seq<Signature>, k: nat, x: Name)
    requires RealOk(g) && IdsDiffer(ps) && k < |ps| == |sigs| && x in OutputNames(ps[k]) && !IsNone(g, x)
    requires sigs[k] == SignatureOf(g, ps[k], Unmet(g, ps, k + 1), sigs[k].skipCudagraph)
    requires Real(g, x) !in Returned(g, ps, k) && Real(g, x) !in InputNames(g, ps[k])
    ensures !AgreeAt(Held(g, Stamp, ps, sigs, k + 1, map[], map[]), RunNodes(g, Stamp, Flat(ps, k + 1), map[] + map[]),
                     Real(g, x))
  {
    var n, none: Env<nat> := Real(g, x), map[];
    var before := Held(g, Stamp, ps, sigs, k, none, none);
    OneMoreCall(g, Stamp, ps, sigs, k + 1, none, none);
    if n in before { HeldBefore(g, ps, sigs, k, n); }
    LostInCall(g, ps, k, sigs[k], before, RunNodes(g, Stamp, Flat(ps, k), none + none), x);
  }

  lemma LostInCall(g: Graph, ps: seq<seq<Node>>, k: nat, sig: Signature, held: Env<nat>, full: Env<nat>, x: Name)
    requires RealOk(g) && k < |ps| && x in OutputNames(ps[k]) && !IsNone(g, x)
    requires sig == SignatureOf(g, ps[k], Unmet(g, ps, k + 1), sig.skipCudagraph)
    requires Real(g, x) !in Returned(g, ps, k) && Real(g, x) !in InputNames(g, ps[k])
    requires Real(g, x) in held ==> !StampOf(ps[k], held[Real(g, x)])
    ensures !AgreeAt(AfterCall(g, Stamp, ps[k], sig, held, map[]), RunNodes(g, Stamp, ps[k], full), Real(g, x))
  {
    StampsWritten(g, ps[k], full, Real(g, x));
    KeptByCaller(g, Stamp, ps, k, sig, held, Real(g, x));
    StampsDiffer(ps[k], held, AfterCall(g, Stamp, ps[k], sig, held, map[]), RunNodes(g, Stamp, ps[k], full),
                 Real(g, x));
  }

  lemma KeptByCaller<V>(g: Graph, sem: Sem<V>, ps: seq<seq<Node>>, k: nat, sig: Signature, held: Env<V>, n: Name)
    requires RealOk(g) && k < |ps| && sig == SignatureOf(g, ps[k], Unmet(g, ps, k + 1), sig.skipCudagraph)
    requires n !in Returned(g, ps, k) && n !in InputNames(g, ps[k])
    ensures AgreeAt(AfterCall(g, sem, ps[k], sig, held, map[]), held, n)
  {
  }

  lemma DeclaredStaysInStep<V>(g: Graph, sem: Sem<V>, ps: seq<seq<Node>>, skips: seq<bool>, inputs: Env<V>,
                               constants: Env<V>)
    requires GraphOk(g, ps) && |ps| == |skips| && EnvsOk(g, inputs, constants)
    ensures StaysInStep(g, sem, ps, skips, inputs, constants)
  {
    forall k | 0 <= k <= |ps| ensures InStepAt(g, sem, ps, skips, k, inputs, constants) {
      HeldAgrees(g, sem, ps, skips, k, inputs, constants);
    }
  }

  /** For every semantics and all inputs, the caller stays in step. */
  ghost predicate AlwaysInStep(g: Graph, ps: seq<seq<Node>>, skips: seq<bool>)
    requires RealOk(g) && |ps| == |skips|
  {
    forall sem: Sem<nat>, inputs: Env<nat>, constants: Env<nat> | EnvsOk(g, inputs, constants) ::
      StaysInStep(g, sem, ps, skips, inputs, constants)
  }

  lemma UndeclaredStrays(g: Graph, ps: seq<seq<Node>>, skips: seq<bool>, k: nat)
    requires ScheduleOk(g, ps) && IdsDiffer(ps) && k < |ps| == |skips| && !MutationsDeclared(g, ps, k)
    ensures !AlwaysInStep(g, ps, skips)
  {
    UndeclaredOutOfStep(g, ps, skips, k);
    OneStray(g, Stamp, ps, skips, k + 1, map[], map[]);
  }

  lemma OneStray(g: Graph, sem: Sem<nat>, ps: seq<seq<Node>>, skips: seq<bool>, k: nat,
                 inputs: Env<nat>, constants: Env<nat>)
    requires RealOk(g) && k <= |ps| == |skips| && EnvsOk(g, inputs, constants)
    requires !InStepAt(g, sem, ps, skips, k, inputs, constants)
    ensures !AlwaysInStep(g, ps, skips)
  {
    assert !StaysInStep(g, sem, ps, skips, inputs, constants);
  }

  /** Under the scheduler's other guarantees, the caller stays in step for every semantics and all inputs if
      and only if every partition declares its mutations of needed buffers. */
  lemma InStepExactly(g: Graph, ps: seq<seq<Node>>, skips: seq<bool>)
    requires ScheduleOk(g, ps) && IdsDiffer(ps) && |ps| == |skips|
    ensures AlwaysInStep(g, ps, skips) <==> forall k | 0 <= k < |ps| :: MutationsDeclared(g, ps, k)
  {
    if k :| 0 <= k < |ps| && !MutationsDeclared(g, ps, k) {
      UndeclaredStrays(g, ps, skips, k);
    } else {
      DeclaredAlwaysInStep(g, ps, skips);
    }
  }

  lemma DeclaredAlwaysInStep(g: Graph, ps: seq<seq<Node>>, skips: seq<bool>)
    requires GraphOk(g, ps) && |ps| == |skips|
    ensures AlwaysInStep(g, ps, skips)
  {
    forall sem: Sem<nat>, inputs: Env<nat>, constants: Env<nat> | EnvsOk(g, inputs, constants)
      ensures StaysInStep(g, sem, ps, skips, inputs, constants)
    {
      DeclaredStaysInStep(g, sem, ps, skips, inputs, constants);
    }
  }

  /** The second partition mutates buffer `b` and uses nothing but the mutation's own name `m`. */
  ghost predicate Undeclared(g: Graph, ps: seq<seq<Node>>, b: Name, m: Name) {
    && b != m && g == Graph({b, m}, {}, {b}, map[b := Buffer(false, false), m := Buffer(true, true)], map[m := b])
    && ps == [[Node(0, {b}, {b}, {})], [Node(1, {m}, {m}, {})]]
  }

  /** Every node writes its own number. */
  ghost predicate WritesIds(sem: Sem<nat>) { forall id, view, x :: sem(id, view, x) == id }

  /** All other guarantees hold there, but the closed run loses the mutation, and with it the graph's output. */
  lemma MutationMustBeDeclared(g: Graph, ps: seq<seq<Node>>, b: Name, m: Name, sem: Sem<nat>)
    requires Undeclared(g, ps, b, m) && WritesIds(sem)
    ensures NamesOk(g, ps) && InOrder(ps[0]) && InOrder(ps[1]) && FreedForGood(g, ps, 0) && FreedForGood(g, ps, 1)
    ensures MutationsDeclared(g, ps, 0) && !MutationsDeclared(g, ps, 1)
    ensures !AgreeAt(Held(g, sem, ps, AllSignatures(g, ps, [false, false]), 2, map[], map[]),
                     RunNodes(g, sem, Flat(ps, 2), map[]), b)
  {
    UndeclaredNames(g, ps, b, m);
    UndeclaredSignatures(g, ps, b, m);
    LastWrite(g, sem, ps, b);
    FirstWrite(g, sem, ps, AllSignatures(g, ps, [false, false]), b);
  }

  lemma LastWrite(g: Graph, sem: Sem<nat>, ps: seq<seq<Node>>, b: Name)
    requires RealOk(g) && WritesIds(sem) && |ps| == 2 && |ps[1]| == 1 && b in Written(g, ps[1][0])
    ensures var e := RunNodes(g, sem, Flat(ps, 2), map[]);
            b in e && e[b] == ps[1][0].id
  {
    RunAppends(g, sem, Flat(ps, 1), ps[1], map[]);
    WritesIts(g, sem, ps[1][0], RunNodes(g, sem, Flat(ps, 1), map[]), b);
    assert ps[1] == [ps[1][0]];
  }

  lemma FirstWrite(g: Graph, sem: Sem<nat>, ps: seq<seq<Node>>, sigs: seq<Signature>, b: Name)
    requires RealOk(g) && WritesIds(sem) && |ps| == |sigs| == 2 && |ps[0]| == 1 && b in Written(g, ps[0][0])
    requires b in sigs[0].outputs && sigs[1].outputs == {} && sigs[1].deallocated == {}
    ensures var h := Held(g, sem, ps, sigs, 2, map[], map[]);
            b in h && h[b] == ps[0][0].id
  {
    var e0: Env<nat> := map[];
    WritesIts(g, sem, ps[0][0], Restrict(e0, sigs[0].constants) + Restrict(e0, sigs[0].inputs), b);
    assert ps[0] == [ps[0][0]];
    assert Held(g, sem, ps, sigs, 1, e0, e0) == AfterCall(g, sem, ps[0], sigs[0], e0, e0);
  }

  lemma WritesIts(g: Graph, sem: Sem<nat>, n: Node, e: Env<nat>, x: Name)
    requires RealOk(g) && x in Written(g, n) && WritesIds(sem)
    ensures x in RunNodes(g, sem, [n], e) && RunNodes(g, sem, [n], e)[x] == n.id
  {
    assert [n][..0] == [];
    assert RunNodes(g, sem, [n], e) == RunNode(g, sem, n, RunNodes(g, sem, [], e));
  }

  lemma NamesOfOne(n: Node)
    ensures OutputNames([n]) == n.outs && UsedNames([n]) == n.uses && FreedNames([n]) == n.lastUsage
  {
    assert [n] == [] + [n];
    OneMoreNode([], n);
  }

  lemma UndeclaredNames(g: Graph, ps: seq<seq<Node>>, b: Name, m: Name)
    requires Undeclared(g, ps, b, m)
    ensures NamesOk(g, ps) && !IsNone(g, b) && !IsNone(g, m)
    ensures Written(g, ps[0][0]) == {b} && Written(g, ps[1][0]) == {b}
    ensures InputNames(g, ps[0]) == {} && InputNames(g, ps[1]) == {}
    ensures InOrder(ps[0]) && InOrder(ps[1]) && FreedForGood(g, ps, 0) && FreedForGood(g, ps, 1)
    ensures MutationsDeclared(g, ps, 0) && !MutationsDeclared(g, ps, 1)
  {
    NamesOfOne(ps[0][0]);
    NamesOfOne(ps[1][0]);
    assert !IsNone(g, b);
    assert g.realName[m] == b;
    assert m in OutputNames(ps[1]);
  }

  lemma UndeclaredSignatures(g: Graph, ps: seq<seq<Node>>, b: Name, m: Name)
    requires Undeclared(g, ps, b, m) && NamesOk(g, ps) && !IsNone(g, b)
    requires InputNames(g, ps[0]) == {} && InputNames(g, ps[1]) == {}
    ensures AllSignatures(g, ps, [false, false])[0].outputs == {b}
    ensures AllSignatures(g, ps, [false, false])[1].outputs == {}
            && AllSignatures(g, ps, [false, false])[1].deallocated == {}
  {
    NamesOfOne(ps[0][0]);
    NamesOfOne(ps[1][0]);
    assert Unmet(g, ps, 2) == {b};
    assert Returned(g, ps, 1) == {};
    assert Unmet(g, ps, 1) == {b};
    assert Returned(g, ps, 0) == {b} by { assert Real(g, b) == b; }
  }
}
