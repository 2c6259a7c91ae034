/** Signatures of graph partitions (get_graph_partition_signature_patched in vllm/env_override.py).

    A compiled graph is a list of nodes cut into partitions.  A reverse pass decides which buffers
    each partition takes and gives back, so that every partition can run as a closed function.
    Sets stand for the source's ordered sets.
 */
module GraphPartition {
  type Name = string

  /** A scheduled node: the buffers it produces, the names it reads or writes, and the buffers whose
      last use it is. */
  datatype Node = Node(id: nat, outs: set<Name>, uses: set<Name>, lastUsage: set<Name>)

  datatype Buffer = Buffer(noneLayout: bool, isMutation: bool)

  /** `known` are the keys of name_to_node: graph inputs and node outputs.  `realName` sends the name of a
      mutation of a buffer to the buffer's own. */
  datatype Graph = Graph(known: set<Name>, constants: set<Name>, outputs: set<Name>, buffers: map<Name, Buffer>,
                         realName: map<Name, Name>)

  datatype Signature = Signature(inputs: set<Name>, outputs: set<Name>, deallocated: set<Name>, skipCudagraph: bool,
                                 constants: set<Name>)

  datatype Result<T> = Ok(value: T) | KeyError

  function Real(g: Graph, x: Name): Name {
    if x in g.realName then g.realName[x] else x
  }

  /** Names of mutations lead to buffers that are not mutations themselves. */
  ghost predicate RealOk(g: Graph) {
    forall x {:trigger g.realName[x]} | x in g.realName :: g.realName[x] !in g.realName
  }

  /** Not allocated, so neither an input nor an output. */
  predicate IsNone(g: Graph, x: Name)
    requires RealOk(g)
    decreases x in g.realName
  {
    && x in g.buffers && g.buffers[x].noneLayout
    && (g.buffers[x].isMutation && x in g.realName ==> IsNone(g, g.realName[x]))
  }

  // ----- What the reverse pass computes for one partition

  function OutputNames(p: seq<Node>): set<Name> { set i, x | 0 <= i < |p| && x in p[i].outs :: x }

  function UsedNames(p: seq<Node>): set<Name> { set i, x | 0 <= i < |p| && x in p[i].uses :: x }

  function FreedNames(p: seq<Node>): set<Name> { set i, x | 0 <= i < |p| && x in p[i].lastUsage :: x }

  function InputNames(g: Graph, p: seq<Node>): set<Name>
    requires RealOk(g)
  {
    (set x | x in UsedNames(p) - OutputNames(p) && !IsNone(g, x) :: Real(g, x))
    + (set x | x in FreedNames(p) - OutputNames(p) && x in g.known)
  }

  /** Real names of the outputs still unmet, and of the inputs kept. */
  function ReturnedNames(g: Graph, p: seq<Node>, unmet: set<Name>): set<Name>
    requires RealOk(g)
  {
    set x | x in (OutputNames(p) * unmet) + ((InputNames(g, p) * g.known) - FreedNames(p)) :: Real(g, x)
  }

  function SignatureOf(g: Graph, p: seq<Node>, unmet: set<Name>, skip: bool): Signature
    requires RealOk(g)
  {
    Signature(InputNames(g, p) * g.known,
              (set x | x in ReturnedNames(g, p, unmet) && !IsNone(g, x)),
              InputNames(g, p) * g.known * FreedNames(p),
              skip,
              InputNames(g, p) * g.constants)
  }

  /** The unmet names before partition `k`. */
  function Unmet(g: Graph, ps: seq<seq<Node>>, k: nat): set<Name>
    requires RealOk(g) && k <= |ps|
    decreases |ps| - k
  {
    if k == |ps| then g.outputs
    else InputNames(g, ps[k]) + (Unmet(g, ps, k + 1) - ReturnedNames(g, ps[k], Unmet(g, ps, k + 1)))
  }

  /** Names partition `k` gives back. */
  function Returned(g: Graph, ps: seq<seq<Node>>, k: nat): set<Name>
    requires RealOk(g) && k < |ps|
  {
    ReturnedNames(g, ps[k], Unmet(g, ps, k + 1))
  }

  function SignatureAt(g: Graph, ps: seq<seq<Node>>, skips: seq<bool>, k: nat): Signature
    requires RealOk(g) && k < |ps| == |skips|
  {
    SignatureOf(g, ps[k], Unmet(g, ps, k + 1), skips[k])
  }

  function AllSignatures(g: Graph, ps: seq<seq<Node>>, skips: seq<bool>): (all: seq<Signature>)
    requires RealOk(g) && |ps| == |skips|
    ensures |all| == |ps|
  {
    seq(|ps|, k requires 0 <= k < |ps| => SignatureAt(g, ps, skips, k))
  }

  method CollectNames(p: seq<Node>) returns (outs: set<Name>, uses: set<Name>, freed: set<Name>)
    ensures outs == OutputNames(p) && uses == UsedNames(p) && freed == FreedNames(p)
  {
    outs, uses, freed := {}, {}, {};
    for i := 0 to |p|
      invariant outs == OutputNames(p[..i]) && uses == UsedNames(p[..i]) && freed == FreedNames(p[..i])
    {
      assert p[..i + 1] == p[..i] + [p[i]];
      OneMoreNode(p[..i], p[i]);
      outs, uses, freed := outs + p[i].outs, uses + p[i].uses, freed + p[i].lastUsage;
    }
    assert p[..|p|] == p;
  }

  lemma OneMoreNode(p: seq<Node>, n: Node)
    ensures OutputNames(p + [n]) == OutputNames(p) + n.outs
    ensures UsedNames(p + [n]) == UsedNames(p) + n.uses
    ensures FreedNames(p + [n]) == FreedNames(p) + n.lastUsage
  {
    var q := p + [n];
    assert q[|p|] == n;
    assert forall i | 0 <= i < |p| :: q[i] == p[i];
  }

  /** One turn of the reverse loop. */
  method SignPartition(g: Graph, p: seq<Node>, unmet: set<Name>, skip: bool)
    returns (signature: Signature, unmet': set<Name>)
    requires RealOk(g)
    ensures signature == SignatureOf(g, p, unmet, skip)
    ensures unmet' == InputNames(g, p) + (unmet - ReturnedNames(g, p, unmet))
  {
    var outs, uses, freed := CollectNames(p);
    var returned := outs * unmet;
    var inputs := set x | x in uses - outs && !IsNone(g, x) :: Real(g, x);
    inputs := inputs + set x | x in freed - outs && x in g.known;
    returned := returned + set x | x in inputs && x in g.known && x !in freed;
    assert returned == (outs * unmet) + ((inputs * g.known) - freed);
    returned := set x | x in returned :: Real(g, x);
    var outputs := set x | x in returned && !IsNone(g, x);
    signature := Signature(inputs * g.known, outputs, inputs * g.known * freed, skip, inputs * g.constants);
    unmet' := inputs + (unmet - returned);
  }

  /** The reverse pass.  It fails exactly when some partition would return a name without a node. */
  method Signatures(g: Graph, ps: seq<seq<Node>>, skips: seq<bool>) returns (r: Result<seq<Signature>>)
    requires RealOk(g) && |skips| == |ps|
    ensures r.Ok? <==> forall k | 0 <= k < |ps| :: AllSignatures(g, ps, skips)[k].outputs <= g.known
    ensures r.Ok? ==> r.value == AllSignatures(g, ps, skips)
  {
    var signatures: seq<Signature> := [];
    var unmet := g.outputs;
    ghost var all := AllSignatures(g, ps, skips);
    for k := |ps| downto 0
      invariant unmet == Unmet(g, ps, k) && signatures == all[k..]
      invariant forall i | 0 <= i < |signatures| :: signatures[i].outputs <= g.known
    {
      var signature, unmet' := SignPartition(g, ps[k], unmet, skips[k]);
      assert signature == all[k];
      if !(signature.outputs <= g.known) {
        return KeyError;
      }
      assert all[k..] == [all[k]] + all[k + 1..];
      signatures := [signature] + signatures;
      unmet := unmet';
    }
    r := Ok(signatures);
  }

  // ----- What unmet names mean

  /** Every input of a partition is met: it is unmet before an earlier point, or returned in between. */
  lemma {:induction false} UnmetCovers(g: Graph, ps: seq<seq<Node>>, k: nat, later: nat, n: Name)
    requires RealOk(g) && k <= later <= |ps|
    requires n in if later == |ps| then g.outputs else InputNames(g, ps[later])
    ensures n in Unmet(g, ps, k) || exists i | k <= i < later :: n in Returned(g, ps, i)
    decreases later - k
  {
    if k < later {
      UnmetCovers(g, ps, k + 1, later, n);
      if n in Unmet(g, ps, k + 1) && n !in Unmet(g, ps, k) { assert n in Returned(g, ps, k); }
    }
  }

  /** And nothing is unmet without a reason. */
  lemma {:induction false} UnmetIsNeeded(g: Graph, ps: seq<seq<Node>>, k: nat, n: Name)
    requires RealOk(g) && k <= |ps| && n in Unmet(g, ps, k)
    ensures n in g.outputs || exists i | k <= i < |ps| :: n in InputNames(g, ps[i])
    decreases |ps| - k
  {
    if k < |ps| && n !in InputNames(g, ps[k]) { UnmetIsNeeded(g, ps, k + 1, n); }
  }
}
