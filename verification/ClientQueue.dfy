/** Clients on a shared prompt queue with one sentinel each
    (benchmarks/benchmark_hidden_state_extraction.py).

    A client waits at the queue, or works on a prompt, or has exited.  Between two awaits a client runs
    alone, so a run is a sequence of steps: a client takes the head of the queue, or a client finishes
    its request, records the result and goes back to the queue.
 */
module ClientQueue {
  datatype Entry = Prompt(idx: nat) | Sentinel

  datatype Client = Waiting | Working(idx: nat) | Exited

  /** `unfinished` counts entries put and not yet marked done. */
  datatype State = State(queue: seq<Entry>, clients: seq<Client>, results: seq<nat>, unfinished: int)

  /** Prompts in order, then one sentinel per client. */
  function FullQueue(prompts: nat, clients: nat): seq<Entry> {
    seq(prompts, i requires 0 <= i => Prompt(i)) + seq(clients, i => Sentinel)
  }

  method FillQueue(prompts: nat, clients: nat) returns (queue: seq<Entry>, unfinished: nat)
    ensures queue == FullQueue(prompts, clients) && unfinished == |queue| == prompts + clients
    ensures forall i | 0 <= i < |queue| :: queue[i] == if i < prompts then Prompt(i) else Sentinel
  {
    queue, unfinished := [], 0;
    for i := 0 to prompts
      invariant queue == FullQueue(i, 0) && unfinished == |queue|
    {
      queue, unfinished := queue + [Prompt(i)], unfinished + 1;
    }
    for i := 0 to clients
      invariant queue == FullQueue(prompts, i) && unfinished == |queue|
    {
      queue, unfinished := queue + [Sentinel], unfinished + 1;
    }
  }

  function Initial(prompts: nat, clients: nat): State {
    State(FullQueue(prompts, clients), seq(clients, c => Waiting), [], prompts + clients)
  }

  // ----- Steps

  /** A client can move: it waits and the queue has an entry, or it works on a request. */
  predicate CanMove(s: State, c: nat) {
    c < |s.clients| && (s.clients[c].Working? || (s.clients[c].Waiting? && s.queue != []))
  }

  function Move(s: State, c: nat): State
    requires CanMove(s, c)
  {
    match s.clients[c]
    case Working(idx) => State(s.queue, s.clients[c := Waiting], s.results + [idx], s.unfinished - 1)
    case Waiting =>
      match s.queue[0]
      case Prompt(idx) => State(s.queue[1..], s.clients[c := Working(idx)], s.results, s.unfinished)
      case Sentinel => State(s.queue[1..], s.clients[c := Exited], s.results, s.unfinished - 1)
  }

  /** Every interleaving: any client that can move may be next. */
  ghost predicate IsRun(run: seq<State>, prompts: nat, clients: nat) {
    && run != [] && run[0] == Initial(prompts, clients)
    && forall k | 0 < k < |run| :: IsStep(run[k - 1], run[k])
  }

  ghost predicate IsStep(s: State, t: State) { exists c: nat :: CanMove(s, c) && t == Move(s, c) }

  // ----- What every step keeps

  /** How many clients work on prompt `idx`. */
  ghost function WorkersOn(clients: seq<Client>, idx: nat): nat {
    if clients == [] then 0
    else WorkersOn(clients[..|clients| - 1], idx) + if clients[|clients| - 1] == Working(idx) then 1 else 0
  }

  /** How many clients work on a prompt at all. */
  ghost function Busy(clients: seq<Client>): nat {
    if clients == [] then 0
    else Busy(clients[..|clients| - 1]) + if clients[|clients| - 1].Working? then 1 else 0
  }

  ghost function Alive(clients: seq<Client>): nat {
    if clients == [] then 0
    else Alive(clients[..|clients| - 1]) + if clients[|clients| - 1].Exited? then 0 else 1
  }

  /** Results recorded for prompt `idx`. */
  ghost function ResultsFor(results: seq<nat>, idx: nat): nat { multiset(results)[idx] }

  /** `taken` prompts have left the queue.  Each of them is recorded or being worked on, once; as many
      sentinels are left as clients have not exited; and none has exited while prompts are left. */
  ghost predicate Inv(s: State, prompts: nat, clients: nat, taken: nat) {
    && taken <= prompts && |s.clients| == clients
    && s.queue == FullQueue(prompts, Alive(s.clients))[taken..]
    && (forall idx: nat :: ResultsFor(s.results, idx) + WorkersOn(s.clients, idx) == if idx < taken then 1 else 0)
    && (Alive(s.clients) < clients ==> taken == prompts)
    && s.unfinished == |s.queue| + Busy(s.clients)
  }

  lemma {:induction false} ClientChanges(clients: seq<Client>, c: nat, to: Client)
    requires c < |clients|
    ensures Busy(clients[c := to]) + (if clients[c].Working? then 1 else 0)
            == Busy(clients) + if to.Working? then 1 else 0
    ensures Alive(clients[c := to]) + (if clients[c].Exited? then 0 else 1)
            == Alive(clients) + if to.Exited? then 0 else 1
  {
    var n, after := |clients| - 1, clients[c := to];
    if c < n {
      assert after[..n] == clients[..n][c := to];
      ClientChanges(clients[..n], c, to);
    } else {
      assert after[..n] == clients[..n];
    }
  }

  lemma {:induction false} WorkersChange(clients: seq<Client>, c: nat, to: Client, idx: nat)
    requires c < |clients|
    ensures WorkersOn(clients[c := to], idx) + (if clients[c] == Working(idx) then 1 else 0)
            == WorkersOn(clients, idx) + if to == Working(idx) then 1 else 0
  {
    var n, after := |clients| - 1, clients[c := to];
    if c < n {
      assert after[..n] == clients[..n][c := to];
      WorkersChange(clients[..n], c, to, idx);
    } else {
      assert after[..n] == clients[..n];
    }
  }

  lemma {:induction false} AllWaiting(clients: seq<Client>)
    requires forall c | 0 <= c < |clients| :: clients[c].Waiting?
    ensures Busy(clients) == 0 && Alive(clients) == |clients|
  {
    if clients != [] { AllWaiting(clients[..|clients| - 1]); }
  }

  lemma {:induction false} NoWorkers(clients: seq<Client>, idx: nat)
    requires Busy(clients) == 0
    ensures WorkersOn(clients, idx) == 0
  {
    if clients != [] { NoWorkers(clients[..|clients| - 1], idx); }
  }

  lemma InitialInv(prompts: nat, clients: nat)
    ensures Inv(Initial(prompts, clients), prompts, clients, 0)
  {
    var s := Initial(prompts, clients);
    AllWaiting(s.clients);
    forall idx: nat ensures ResultsFor(s.results, idx) + WorkersOn(s.clients, idx) == 0 { NoWorkers(s.clients, idx); }
  }

  lemma {:induction false} SomeAlive(clients: seq<Client>, c: nat)
    requires c < |clients| && !clients[c].Exited?
    ensures Alive(clients) > 0
  {
    if c < |clients| - 1 { SomeAlive(clients[..|clients| - 1], c); }
  }

  /** The head of the queue is the next prompt, or a sentinel when no prompt is left. */
  lemma HeadOfQueue(s: State, prompts: nat, clients: nat, taken: nat)
    requires Inv(s, prompts, clients, taken) && Alive(s.clients) > 0
    ensures s.queue != [] && s.queue[0] == if taken < prompts then Prompt(taken) else Sentinel
    ensures taken < prompts ==> s.queue[1..] == FullQueue(prompts, Alive(s.clients))[taken + 1..]
    ensures taken == prompts ==> s.queue[1..] == FullQueue(prompts, Alive(s.clients) - 1)[taken..]
  {
  }

  /** Prompts taken after client `c` moves. */
  ghost function TakenAfter(s: State, c: nat, prompts: nat, taken: nat): nat
    requires c < |s.clients|
  {
    if s.clients[c].Waiting? && taken < prompts then taken + 1 else taken
  }

  lemma MoveKeepsInv(s: State, c: nat, prompts: nat, clients: nat, taken: nat)
    requires Inv(s, prompts, clients, taken) && CanMove(s, c)
    ensures Inv(Move(s, c), prompts, clients, TakenAfter(s, c, prompts, taken))
    ensures Measure(Move(s, c), prompts, TakenAfter(s, c, prompts, taken)) + 1 == Measure(s, prompts, taken)
  {
    SomeAlive(s.clients, c);
    HeadOfQueue(s, prompts, clients, taken);
    if s.clients[c].Working? {
      FinishKeepsInv(s, c, prompts, clients, taken);
    } else if taken < prompts {
      PromptKeepsInv(s, c, prompts, clients, taken);
    } else {
      SentinelKeepsInv(s, c, prompts, clients, taken);
    }
  }

  lemma FinishKeepsInv(s: State, c: nat, prompts: nat, clients: nat, taken: nat)
    requires Inv(s, prompts, clients, taken) && c < clients && s.clients[c].Working?
    ensures Inv(Move(s, c), prompts, clients, taken)
            && Measure(Move(s, c), prompts, taken) + 1 == Measure(s, prompts, taken)
  {
    var done := s.clients[c].idx;
    ClientChanges(s.clients, c, Waiting);
    forall idx: nat
      ensures ResultsFor(s.results + [done], idx) + WorkersOn(s.clients[c := Waiting], idx)
              == if idx < taken then 1 else 0
    {
      WorkersChange(s.clients, c, Waiting, idx);
      assert ResultsFor(s.results + [done], idx) == ResultsFor(s.results, idx) + if idx == done then 1 else 0;
    }
  }

  lemma PromptKeepsInv(s: State, c: nat, prompts: nat, clients: nat, taken: nat)
    requires Inv(s, prompts, clients, taken) && c < clients && s.clients[c].Waiting? && taken < prompts
    requires s.queue != [] && s.queue[0] == Prompt(taken)
             && s.queue[1..] == FullQueue(prompts, Alive(s.clients))[taken + 1..]
    ensures Inv(Move(s, c), prompts, clients, taken + 1)
            && Measure(Move(s, c), prompts, taken + 1) + 1 == Measure(s, prompts, taken)
  {
    ClientChanges(s.clients, c, Working(taken));
    forall idx: nat
      ensures ResultsFor(s.results, idx) + WorkersOn(s.clients[c := Working(taken)], idx)
              == if idx < taken + 1 then 1 else 0
    {
      WorkersChange(s.clients, c, Working(taken), idx);
    }
  }

  lemma SentinelKeepsInv(s: State, c: nat, prompts: nat, clients: nat, taken: nat)
    requires Inv(s, prompts, clients, taken) && c < clients && s.clients[c].Waiting? && taken == prompts
             && Alive(s.clients) > 0
    requires s.queue != [] && s.queue[0] == Sentinel
             && s.queue[1..] == FullQueue(prompts, Alive(s.clients) - 1)[taken..]
    ensures Inv(Move(s, c), prompts, clients, taken)
            && Measure(Move(s, c), prompts, taken) + 1 == Measure(s, prompts, taken)
  {
    ClientChanges(s.clients, c, Exited);
    forall idx: nat ensures WorkersOn(s.clients[c := Exited], idx) == WorkersOn(s.clients, idx) {
      WorkersChange(s.clients, c, Exited, idx);
    }
  }

  /** A client at the queue never finds it empty. */
  lemma NeverBlocked(s: State, c: nat, prompts: nat, clients: nat, taken: nat)
    requires Inv(s, prompts, clients, taken) && c < clients && !s.clients[c].Exited?
    ensures CanMove(s, c)
  {
    SomeAlive(s.clients, c);
    HeadOfQueue(s, prompts, clients, taken);
  }

  /** Steps still to come: two for each prompt in the queue, one for each being worked on, one for each
      client that has not exited. */
  ghost function Measure(s: State, prompts: nat, taken: nat): int {
    2 * (prompts - taken) + Busy(s.clients) + Alive(s.clients)
  }

  // ----- Whole runs

  lemma {:induction false} RunKeepsInv(run: seq<State>, prompts: nat, clients: nat, k: nat) returns (taken: nat)
    requires IsRun(run, prompts, clients) && k < |run|
    ensures Inv(run[k], prompts, clients, taken) && Measure(run[k], prompts, taken) + k == 2 * prompts + clients
  {
    if k == 0 {
      taken := 0;
      InitialInv(prompts, clients);
      AllWaiting(run[0].clients);
    } else {
      var before := RunKeepsInv(run, prompts, clients, k - 1);
      assert IsStep(run[k - 1], run[k]);
      var c: nat :| CanMove(run[k - 1], c) && run[k] == Move(run[k - 1], c);
      MoveKeepsInv(run[k - 1], c, prompts, clients, before);
      taken := TakenAfter(run[k - 1], c, prompts, before);
    }
  }

  ghost function Sentinels(queue: seq<Entry>): nat {
    if queue == [] then 0 else Sentinels(queue[..|queue| - 1]) + if queue[|queue| - 1].Sentinel? then 1 else 0
  }

  lemma {:induction false} SentinelsLeft(prompts: nat, left: nat, taken: nat)
    requires taken <= prompts
    ensures Sentinels(FullQueue(prompts, left)[taken..]) == left
    decreases left, prompts
  {
    var queue := FullQueue(prompts, left)[taken..];
    if left > 0 {
      assert queue[..|queue| - 1] == FullQueue(prompts, left - 1)[taken..];
      SentinelsLeft(prompts, left - 1, taken);
    } else if taken < prompts {
      assert queue[..|queue| - 1] == FullQueue(prompts - 1, left)[taken..];
      SentinelsLeft(prompts - 1, left, taken);
    } else {
      assert queue == [];
    }
  }

  /** At every moment of every interleaving: as many sentinels are queued as clients have not exited, no
      client that has not exited is stuck, and no prompt is taken or recorded twice. */
  lemma EveryMoment(run: seq<State>, prompts: nat, clients: nat, k: nat, c: nat)
    requires IsRun(run, prompts, clients) && k < |run| && c < clients
    ensures |run[k].clients| == clients && Sentinels(run[k].queue) == Alive(run[k].clients)
    ensures !run[k].clients[c].Exited? ==> CanMove(run[k], c)
    ensures forall idx: nat ::
              ResultsFor(run[k].results, idx) + WorkersOn(run[k].clients, idx) <= if idx < prompts then 1 else 0
    ensures run[k].unfinished == |run[k].queue| + Busy(run[k].clients)
  {
    var taken := RunKeepsInv(run, prompts, clients, k);
    SentinelsLeft(prompts, Alive(run[k].clients), taken);
    if !run[k].clients[c].Exited? { NeverBlocked(run[k], c, prompts, clients, taken); }
  }

  /** Every run is finite, and a run that can go no further has done everything: all clients have exited,
      the queue is empty and drained, and every prompt has exactly one result. */
  lemma RunEnds(run: seq<State>, prompts: nat, clients: nat)
    requires IsRun(run, prompts, clients) && clients > 0
    ensures |run| <= 2 * prompts + clients + 1
    ensures var last := run[|run| - 1];
            (forall c: nat :: !CanMove(last, c)) <==> |run| == 2 * prompts + clients + 1
    ensures var last := run[|run| - 1];
            |run| == 2 * prompts + clients + 1 ==>
              && last.queue == [] && last.unfinished == 0 && Alive(last.clients) == 0
              && forall idx: nat :: ResultsFor(last.results, idx) == if idx < prompts then 1 else 0
  {
    var last := run[|run| - 1];
    var taken := RunKeepsInv(run, prompts, clients, |run| - 1);
    if Alive(last.clients) > 0 {
      var c := FindAlive(last.clients);
      NeverBlocked(last, c, prompts, clients, taken);
    } else {
      NoneAlive(last.clients);
      forall idx: nat ensures ResultsFor(last.results, idx) == if idx < prompts then 1 else 0 {
        NoWorkers(last.clients, idx);
      }
    }
  }

  lemma {:induction false} FindAlive(clients: seq<Client>) returns (c: nat)
    requires Alive(clients) > 0
    ensures c < |clients| && !clients[c].Exited?
  {
    var n := |clients| - 1;
    if clients[n].Exited? { c := FindAlive(clients[..n]); } else { c := n; }
  }

  lemma {:induction false} NoneAlive(clients: seq<Client>)
    requires Alive(clients) == 0
    ensures Busy(clients) == 0 && forall c | 0 <= c < |clients| :: clients[c].Exited?
  {
    if clients != [] { NoneAlive(clients[..|clients| - 1]); }
  }
}
