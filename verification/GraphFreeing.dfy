/** What a signature asks for and gives back, and which buffers the caller lets go of, call by call. */
module GraphFreeing {
  import opened GraphPartition
  import opened GraphMeaning
  import opened GraphLiveness

  /** A partition uses buffer `n` under a name that it does not itself produce. */
  ghost predicate UsedFromOutside(g: Graph, p: seq<Node>, n: Name)
    requires RealOk(g)
  {
    exists x :: x in UsedNames(p) && x !in OutputNames(p) && !IsNone(g, x) && Real(g, x) == n
  }

  /** A partition frees a buffer that is the caller's. */
  ghost predicate FreesCallers(g: Graph, p: seq<Node>, n: Name)
    requires RealOk(g)
  {
    n in g.known && n in FreedNames(p) && (n !in OutputNames(p) || UsedFromOutside(g, p, n))
  }

  lemma DeallocatedIs(g: Graph, ps: seq<seq<Node>>, k: nat, sig: Signature, n: Name)
    requires RealOk(g) && k < |ps| && sig == SignatureOf(g, ps[k], Unmet(g, ps, k + 1), sig.skipCudagraph)
    ensures n in sig.deallocated <==> FreesCallers(g, ps[k], n)
  {
    assert sig.deallocated == InputNames(g, ps[k]) * g.known * FreedNames(ps[k]);
  }

  /** What is freed is not given back. */
  lemma FreedIsNotReturned(g: Graph, ps: seq<seq<Node>>, k: nat, n: Name)
    requires ScheduleOk(g, ps) && k < |ps| && n in FreedNames(ps[k])
    ensures n !in Returned(g, ps, k)
  {
    ReturnedExactly(g, ps, k, n);
    if n in Unmet(g, ps, k + 1) { FreedIsMet(g, ps, k, n); }
  }

  /** A signature in the partition's own terms.  It takes the buffers used under a name from outside and the
      ones it frees without producing them; it takes as constants those used; it frees what it takes and
      is used for the last time; and it gives back what it produces and is needed later, and what it takes
      and does not free. */
  lemma SignatureExactly(g: Graph, ps: seq<seq<Node>>, skips: seq<bool>, k: nat, n: Name)
    requires ScheduleOk(g, ps) && k < |ps| == |skips|
    ensures var sig, p := AllSignatures(g, ps, skips)[k], ps[k];
            && (n in sig.inputs <==>
                  n in g.known && (UsedFromOutside(g, p, n) || (n in FreedNames(p) && n !in OutputNames(p))))
            && (n in sig.constants <==> n in g.constants && UsedFromOutside(g, p, n))
            && (n in sig.deallocated <==> FreesCallers(g, p, n))
            && (n in sig.outputs <==>
                  && !IsNone(g, n)
                  && ((n in OutputNames(p) && n in Unmet(g, ps, k + 1)) || (n in sig.inputs && n !in FreedNames(p))))
            && sig.skipCudagraph == skips[k]
  {
    var sig, p := AllSignatures(g, ps, skips)[k], ps[k];
    assert PartitionNamesOk(g, p);
    DeallocatedIs(g, ps, k, sig, n);
    ReturnedExactly(g, ps, k, n);
  }

  lemma ReturnedExactly(g: Graph, ps: seq<seq<Node>>, k: nat, n: Name)
    requires ScheduleOk(g, ps) && k < |ps|
    ensures n in Returned(g, ps, k) <==>
              || (n in OutputNames(ps[k]) && n in Unmet(g, ps, k + 1))
              || (n in InputNames(g, ps[k]) && n in g.known && n !in FreedNames(ps[k]))
  {
    var p, unmet := ps[k], Unmet(g, ps, k + 1);
    assert PartitionNamesOk(g, p);
    if n in Returned(g, ps, k) {
      var x :| x in (OutputNames(p) * unmet) + ((InputNames(g, p) * g.known) - FreedNames(p)) && n == Real(g, x);
      if x in InputNames(g, p) { InputIsReal(g, p, x); }
      if x in unmet { UnmetIsReal(g, ps, k + 1, x); }
    }
    if n in InputNames(g, p) { InputIsReal(g, p, n); }
    if n in unmet { UnmetIsReal(g, ps, k + 1, n); }
    assert n in (OutputNames(p) * unmet) + ((InputNames(g, p) * g.known) - FreedNames(p)) ==>
             Real(g, n) in Returned(g, ps, k);
  }

  /** What is given back, if the caller held it, is there to be given back. */
  lemma ReturnedIsThere<V>(g: Graph, sem: Sem<V>, ps: seq<seq<Node>>, k: nat, sig: Signature, held: Env<V>,
                           constants: Env<V>, n: Name)
    requires CallOk(g, ps, k, sig, constants) && n in held && n in sig.outputs
    ensures n in Call(g, sem, ps[k], sig, held, constants)
  {
    var p, given := ps[k], Restrict(constants, sig.constants) + Restrict(held, sig.inputs);
    ReturnedExactly(g, ps, k, n);
    assert n in InputNames(g, p) && n in g.known ==> n in given;
    if n in Unmet(g, ps, k + 1) { UnmetIsReal(g, ps, k + 1, n); }
    BodyHas(g, sem, p, given, n);
  }

  /** A call takes from the caller exactly the buffers of the caller's that the partition frees. */
  lemma CallTakes<V>(g: Graph, sem: Sem<V>, ps: seq<seq<Node>>, k: nat, sig: Signature, held: Env<V>,
                     constants: Env<V>, n: Name)
    requires CallOk(g, ps, k, sig, constants)
    ensures FreesCallers(g, ps[k], n) ==> n !in AfterCall(g, sem, ps[k], sig, held, constants)
    ensures n in held ==> (n in AfterCall(g, sem, ps[k], sig, held, constants) <==> !FreesCallers(g, ps[k], n))
  {
    DeallocatedIs(g, ps, k, sig, n);
    if n in FreedNames(ps[k]) { FreedIsNotReturned(g, ps, k, n); }
    if n in held && n in sig.outputs { ReturnedIsThere(g, sem, ps, k, sig, held, constants, n); }
  }

  /** In any run of the partitions, a buffer that the caller holds before a call is gone after it if and only
      if it is one of the caller's that the partition frees. */
  lemma LostExactly<V>(g: Graph, sem: Sem<V>, ps: seq<seq<Node>>, skips: seq<bool>, k: nat, inputs: Env<V>,
                       constants: Env<V>, n: Name)
    requires ScheduleOk(g, ps) && k < |ps| == |skips| && constants.Keys <= g.constants
    requires n in Held(g, sem, ps, AllSignatures(g, ps, skips), k, inputs, constants)
    ensures n !in Held(g, sem, ps, AllSignatures(g, ps, skips), k + 1, inputs, constants)
            <==> FreesCallers(g, ps[k], n)
  {
    var sigs := AllSignatures(g, ps, skips);
    SignatureIs(g, ps, skips, k);
    HeldNext(g, sem, ps, sigs, k + 1, inputs, constants);
    CallTakes(g, sem, ps, k, sigs[k], Held(g, sem, ps, sigs, k, inputs, constants), constants, n);
  }

  /** What a partition neither takes nor produces, it does not give. */
  lemma NotMadeAgain<V>(g: Graph, sem: Sem<V>, ps: seq<seq<Node>>, k: nat, sig: Signature, held: Env<V>,
                        constants: Env<V>, n: Name)
    requires CallOk(g, ps, k, sig, constants) && n !in held && n !in InputNames(g, ps[k]) && n !in OutputNames(ps[k])
    ensures n !in AfterCall(g, sem, ps[k], sig, held, constants)
  {
    ReturnedExactly(g, ps, k, n);
  }

  /** Buffer `n` of the caller's is freed by partition `k` and produced by none before partition `j`. */
  ghost predicate FreedUntil(g: Graph, ps: seq<seq<Node>>, k: nat, j: nat, n: Name)
    requires RealOk(g) && k < j <= |ps|
  {
    FreesCallers(g, ps[k], n) && forall i | k < i < j :: n !in OutputNames(ps[i]) && n !in InputNames(g, ps[i])
  }

  lemma FreedUntilIs(g: Graph, ps: seq<seq<Node>>, k: nat, j: nat, n: Name)
    requires ScheduleOk(g, ps) && k < j <= |ps| && FreesCallers(g, ps[k], n)
    requires forall i | k < i < j :: n !in OutputNames(ps[i])
    ensures FreedUntil(g, ps, k, j, n)
  {
    assert FreedForGood(g, ps, k);
  }

  ghost predicate GoneAfter<V>(ps: seq<seq<Node>>, hs: seq<Env<V>>, i: nat, n: Name) {
    |hs| == |ps| + 1 && i < |ps| && n !in hs[i + 1]
  }

  lemma FreedIsGone<V>(g: Graph, sem: Sem<V>, ps: seq<seq<Node>>, sigs: seq<Signature>, constants: Env<V>,
                       hs: seq<Env<V>>, k: nat, n: Name)
    requires ScheduleOk(g, ps) && constants.Keys <= g.constants && k < |ps| == |sigs| && |hs| == |ps| + 1
    requires GraphLiveness.SignatureAt(g, ps, sigs, k) && CallAt(g, sem, ps, sigs, constants, hs, k)
    requires FreesCallers(g, ps[k], n)
    ensures GoneAfter(ps, hs, k, n)
  {
    CallTakes(g, sem, ps, k, sigs[k], hs[k], constants, n);
  }

  lemma GoneOn<V>(g: Graph, sem: Sem<V>, ps: seq<seq<Node>>, sigs: seq<Signature>, constants: Env<V>,
                  hs: seq<Env<V>>, i: nat, n: Name)
    requires ScheduleOk(g, ps) && constants.Keys <= g.constants && 0 < i < |ps| == |sigs| && |hs| == |ps| + 1
    requires GraphLiveness.SignatureAt(g, ps, sigs, i) && CallAt(g, sem, ps, sigs, constants, hs, i)
    requires GoneAfter(ps, hs, i - 1, n) && n !in InputNames(g, ps[i]) && n !in OutputNames(ps[i])
    ensures GoneAfter(ps, hs, i, n)
  {
    NotMadeAgain(g, sem, ps, i, sigs[i], hs[i], constants, n);
  }

  lemma {:induction false} StaysGone<V>(g: Graph, sem: Sem<V>, ps: seq<seq<Node>>, sigs: seq<Signature>,
                                        constants: Env<V>,
                                        hs: seq<Env<V>>, k: nat, i: nat, n: Name)
    requires ScheduleOk(g, ps) && constants.Keys <= g.constants && k <= i < |ps| == |sigs| && |hs| == |ps| + 1
    requires forall i | 0 <= i < |ps| ::
               GraphLiveness.SignatureAt(g, ps, sigs, i) && CallAt(g, sem, ps, sigs, constants, hs, i)
    requires FreedUntil(g, ps, k, i + 1, n)
    ensures GoneAfter(ps, hs, i, n)
    decreases i
  {
    if i == k {
      FreedIsGone(g, sem, ps, sigs, constants, hs, k, n);
    } else {
      StaysGone(g, sem, ps, sigs, constants, hs, k, i - 1, n);
      GoneOn(g, sem, ps, sigs, constants, hs, i, n);
    }
  }

  /** And what a partition frees of the caller's stays gone, until some partition produces a buffer of that
      name again. */
  lemma FreedStaysGone<V>(g: Graph, sem: Sem<V>, ps: seq<seq<Node>>, skips: seq<bool>, k: nat, j: nat,
                          inputs: Env<V>, constants: Env<V>, n: Name)
    requires ScheduleOk(g, ps) && k < j <= |ps| == |skips| && constants.Keys <= g.constants
    requires FreesCallers(g, ps[k], n) && forall i | k < i < j :: n !in OutputNames(ps[i])
    ensures n !in Held(g, sem, ps, AllSignatures(g, ps, skips), j, inputs, constants)
  {
    var sigs := AllSignatures(g, ps, skips);
    var hs := HeldRun(g, sem, ps, sigs, inputs, constants);
    forall i | 0 <= i < |ps| ensures GraphLiveness.SignatureAt(g, ps, sigs, i) { SignatureIs(g, ps, skips, i); }
    FreedUntilIs(g, ps, k, j, n);
    StaysGone(g, sem, ps, sigs, constants, hs, k, j - 1, n);
  }
}
