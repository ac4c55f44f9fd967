/**
 `mapWithConcurrency` under every interleaving: a few workers share one index counter and
 one results array. Between two awaits a worker's code is one step. What the mapped
 function answers for each item is an oracle; `None` means it throws.
 */
module WorkerPool {
  import opened Wrappers

  datatype Worker = Idle | Busy(index: nat) | Finished | Thrown

  /** `started` records every call of the mapped function, in order. */
  datatype Pool<R> = Pool(nextIndex: nat, workers: seq<Worker>, results: seq<Option<R>>, started: seq<nat>)

  datatype Turn = Take | Settle

  function Limit(concurrency: nat, items: nat): nat { if concurrency <= items then concurrency else items }

  function Start<R>(items: nat, concurrency: nat): Pool<R> {
    Pool(0, seq(Limit(concurrency, items), _ => Idle), seq(items, _ => None), [])
  }

  predicate Enabled<R>(p: Pool<R>, w: nat, turn: Turn) {
    w < |p.workers| && if turn.Take? then p.workers[w].Idle? else p.workers[w].Busy? && p.workers[w].index < |p.results|
  }

  /** `Take`: the loop test and `nextIndex++`. `Settle`: the awaited call returns or throws. */
  function Step<R>(p: Pool<R>, answers: seq<Option<R>>, w: nat, turn: Turn): Pool<R>
    requires Enabled(p, w, turn) && |answers| == |p.results|
  {
    match turn
    case Take =>
      if p.nextIndex < |p.results|
      then Pool(p.nextIndex + 1, p.workers[w := Busy(p.nextIndex)], p.results, p.started + [p.nextIndex])
      else p.(workers := p.workers[w := Finished])
    case Settle =>
      var i := p.workers[w].index;
      if answers[i].Some?
      then p.(workers := p.workers[w := Idle], results := p.results[i := answers[i]])
      else p.(workers := p.workers[w := Thrown])
  }

  ghost predicate BusyWith<R>(p: Pool<R>, i: nat) {
    exists w :: 0 <= w < |p.workers| && p.workers[w] == Busy(i)
  }

  ghost predicate Inv<R>(p: Pool<R>, answers: seq<Option<R>>) {
    && |answers| == |p.results| && p.nextIndex <= |p.results|
    && |p.started| == p.nextIndex && (forall k :: 0 <= k < |p.started| ==> p.started[k] == k)
    && (forall w :: 0 <= w < |p.workers| && p.workers[w].Busy? ==>
          p.workers[w].index < p.nextIndex && p.results[p.workers[w].index].None?)
    && (forall v, w :: 0 <= v < w < |p.workers| && p.workers[v].Busy? && p.workers[w].Busy? ==>
          p.workers[v].index != p.workers[w].index)
    && (forall i :: 0 <= i < |p.results| && p.results[i].Some? ==> i < p.nextIndex && p.results[i] == answers[i])
    && (forall i :: 0 <= i < p.nextIndex && p.results[i].None? && answers[i].Some? ==> BusyWith(p, i))
    && (forall w :: 0 <= w < |p.workers| && p.workers[w].Finished? ==> p.nextIndex == |p.results|)
    && ((exists w :: 0 <= w < |p.workers| && p.workers[w].Thrown?) ==>
      exists i :: 0 <= i < |answers| && answers[i].None?)
  }

  lemma StartInv<R>(answers: seq<Option<R>>, concurrency: nat)
    ensures Inv(Start<R>(|answers|, concurrency), answers)
  {
  }

  lemma StepKeepsBusy<R>(p: Pool<R>, answers: seq<Option<R>>, w: nat, turn: Turn, i: nat)
    requires Inv(p, answers) && Enabled(p, w, turn)
    requires var q := Step(p, answers, w, turn); i < q.nextIndex && q.results[i].None? && answers[i].Some?
    ensures BusyWith(Step(p, answers, w, turn), i)
  {
    var q := Step(p, answers, w, turn);
    if i == p.nextIndex {
      assert q.workers[w] == Busy(i);
    } else {
      var v :| 0 <= v < |p.workers| && p.workers[v] == Busy(i);
      assert v != w;
      assert q.workers[v] == Busy(i);
    }
  }

  lemma StepKeepsInv<R>(p: Pool<R>, answers: seq<Option<R>>, w: nat, turn: Turn)
    requires Inv(p, answers) && Enabled(p, w, turn)
    ensures Inv(Step(p, answers, w, turn), answers)
  {
    var q := Step(p, answers, w, turn);
    forall i | 0 <= i < q.nextIndex && q.results[i].None? && answers[i].Some? ensures BusyWith(q, i) {
      StepKeepsBusy(p, answers, w, turn, i);
    }
    if turn.Settle? && answers[p.workers[w].index].None? {
      var i := p.workers[w].index;
      assert 0 <= i < |answers| && answers[i].None?;
    } else if v :| 0 <= v < |q.workers| && q.workers[v].Thrown? {
      assert p.workers[v].Thrown?;
    }
  }

  ghost predicate IsRun<R>(ps: seq<Pool<R>>, answers: seq<Option<R>>, turns: seq<(nat, Turn)>) {
    && |ps| == |turns| + 1
    && forall k {:trigger turns[k]} :: 0 <= k < |turns| ==>
         && |answers| == |ps[k].results| && Enabled(ps[k], turns[k].0, turns[k].1)
         && ps[k + 1] == Step(ps[k], answers, turns[k].0, turns[k].1)
  }

  lemma {:induction false} RunKeepsInv<R>(ps: seq<Pool<R>>, answers: seq<Option<R>>, turns: seq<(nat, Turn)>,
                                          concurrency: nat, k: nat)
    requires IsRun(ps, answers, turns) && ps[0] == Start<R>(|answers|, concurrency) && k < |ps|
    ensures Inv(ps[k], answers) && |ps[k].workers| == Limit(concurrency, |answers|)
  {
    if k == 0 {
      StartInv(answers, concurrency);
    } else {
      RunKeepsInv(ps, answers, turns, concurrency, k - 1);
      StepKeepsInv(ps[k - 1], answers, turns[k - 1].0, turns[k - 1].1);
    }
  }

  lemma DoneOrBusy<R>(p: Pool<R>, answers: seq<Option<R>>, i: nat)
    requires Inv(p, answers) && i < |answers| && p.nextIndex == |p.results|
    ensures p.results[i] == answers[i] || BusyWith(p, i)
  {
  }

  function InFlight(workers: seq<Worker>): nat {
    if workers == [] then 0 else InFlight(workers[..|workers| - 1]) + if workers[|workers| - 1].Busy? then 1 else 0
  }

  lemma {:induction false} InFlightWithinWorkers(workers: seq<Worker>)
    ensures InFlight(workers) <= |workers|
  {
    if workers != [] {
      InFlightWithinWorkers(workers[..|workers| - 1]);
    }
  }

  /**
   In every interleaving and completion order: no item is mapped twice, a stored result is
   its own item's, never more than the limit are in flight, and when all workers have
   finished every item has been mapped once and result i stands at index i.
   */
  lemma MapsEachItemOnce<R>(ps: seq<Pool<R>>, answers: seq<Option<R>>, turns: seq<(nat, Turn)>, concurrency: nat,
                            k: nat)
    requires IsRun(ps, answers, turns) && ps[0] == Start<R>(|answers|, concurrency) && k < |ps|
    ensures var p := ps[k];
            && |p.results| == |answers|
            && (forall i, j :: 0 <= i < j < |p.started| ==> p.started[i] != p.started[j])
            && (forall i :: 0 <= i < |p.results| && p.results[i].Some? ==> p.results[i] == answers[i])
            && InFlight(p.workers) <= concurrency
            && ((forall w :: 0 <= w < |p.workers| ==> p.workers[w].Finished?) && 1 <= concurrency ==>
                  p.results == answers && |p.started| == |answers|)
  {
    RunKeepsInv(ps, answers, turns, concurrency, k);
    var p := ps[k];
    InFlightWithinWorkers(p.workers);
    if (forall w :: 0 <= w < |p.workers| ==> p.workers[w].Finished?) && 1 <= concurrency {
      if |answers| > 0 {
        assert p.workers[0].Finished?;
      }
      forall i | 0 <= i < |answers| ensures p.results[i] == answers[i] {
        DoneOrBusy(p, answers, i);
      }
    }
  }

  /** One worker that finishes is enough for every other item, if some calls throw. */
  lemma SurvivorsFinishTheRest<R>(ps: seq<Pool<R>>, answers: seq<Option<R>>, turns: seq<(nat, Turn)>,
                                  concurrency: nat, k: nat, w: nat)
    requires IsRun(ps, answers, turns) && ps[0] == Start<R>(|answers|, concurrency) && k < |ps|
    requires w < |ps[k].workers| && ps[k].workers[w].Finished?
    requires forall v :: 0 <= v < |ps[k].workers| ==> ps[k].workers[v].Finished? || ps[k].workers[v].Thrown?
    ensures ps[k].results == answers
  {
    RunKeepsInv(ps, answers, turns, concurrency, k);
    var p := ps[k];
    forall i | 0 <= i < |answers| ensures p.results[i] == answers[i] {
      DoneOrBusy(p, answers, i);
    }
  }

  // ---------- it ends ----------

  function Weight(worker: Worker): nat {
    match worker case Idle => 1 case Busy(_) => 2 case Finished => 0 case Thrown => 0
  }

  function Weights(workers: seq<Worker>): nat {
    if workers == [] then 0 else Weights(workers[..|workers| - 1]) + Weight(workers[|workers| - 1])
  }

  lemma {:induction false} WeightsUpdate(workers: seq<Worker>, w: nat, worker: Worker)
    requires w < |workers|
    ensures Weights(workers[w := worker]) == Weights(workers) - Weight(workers[w]) + Weight(worker)
  {
    var n := |workers| - 1;
    if w < n {
      WeightsUpdate(workers[..n], w, worker);
      assert workers[w := worker][..n] == workers[..n][w := worker];
    } else {
      assert workers[w := worker][..n] == workers[..n];
    }
  }

  function Remaining<R>(p: Pool<R>): nat
    requires p.nextIndex <= |p.results|
  {
    2 * (|p.results| - p.nextIndex) + Weights(p.workers)
  }

  /** Every turn brings the end nearer, so no interleaving goes on for ever. */
  lemma StepMakesProgress<R>(p: Pool<R>, answers: seq<Option<R>>, w: nat, turn: Turn)
    requires Inv(p, answers) && Enabled(p, w, turn)
    ensures Step(p, answers, w, turn).nextIndex <= |Step(p, answers, w, turn).results|
    ensures Remaining(Step(p, answers, w, turn)) < Remaining(p)
  {
    WeightsUpdate(p.workers, w, Step(p, answers, w, turn).workers[w]);
  }

  /** A pool in which some worker is neither finished nor stopped by a throw can always take a turn. */
  lemma UnfinishedPoolGoesOn<R>(p: Pool<R>, answers: seq<Option<R>>, w: nat)
    requires Inv(p, answers) && w < |p.workers| && !p.workers[w].Finished? && !p.workers[w].Thrown?
    ensures Enabled(p, w, if p.workers[w].Idle? then Take else Settle)
  {
  }

  /** So every run ends, after at most two turns for each item and one for each worker. */
  lemma {:induction false} RunsEnd<R>(ps: seq<Pool<R>>, answers: seq<Option<R>>, turns: seq<(nat, Turn)>,
                                      concurrency: nat, k: nat)
    requires IsRun(ps, answers, turns) && ps[0] == Start<R>(|answers|, concurrency) && k < |ps|
    ensures ps[k].nextIndex <= |ps[k].results|
    ensures k + Remaining(ps[k]) <= 2 * |answers| + Limit(concurrency, |answers|)
  {
    if k == 0 {
      IdleWeights(ps[0].workers);
    } else {
      RunsEnd(ps, answers, turns, concurrency, k - 1);
      RunKeepsInv(ps, answers, turns, concurrency, k - 1);
      StepMakesProgress(ps[k - 1], answers, turns[k - 1].0, turns[k - 1].1);
    }
  }

  lemma {:induction false} IdleWeights(workers: seq<Worker>)
    requires forall w :: 0 <= w < |workers| ==> workers[w].Idle?
    ensures Weights(workers) == |workers|
  {
    if workers != [] {
      IdleWeights(workers[..|workers| - 1]);
    }
  }

  // ---------- the shared variables ----------

  /** The closure's variables as the program has them. */
  class SharedMap<R(0)> {
    var nextIndex: nat
    const results: array<Option<R>>
    const workers: array<Worker>
    ghost var started: seq<nat>

    ghost function View(): Pool<R>
      reads this, results, workers
    {
      Pool(nextIndex, workers[..], results[..], started)
    }

    constructor (items: nat, concurrency: nat)
      ensures View() == Start<R>(items, concurrency) && fresh(results) && fresh(workers)
    {
      nextIndex := 0;
      results := new Option<R>[items](_ => None);
      workers := new Worker[Limit(concurrency, items)](_ => Idle);
      started := [];
    }

    method TakeTurn(w: nat, ghost answers: seq<Option<R>>)
      requires Enabled(View(), w, Take) && |answers| == results.Length
      modifies this, workers
      ensures View() == Step(old(View()), answers, w, Take)
    {
      if nextIndex < results.Length {
        var index := nextIndex;
        nextIndex := nextIndex + 1;
        started := started + [index];
        workers[w] := Busy(index);
      } else {
        workers[w] := Finished;
      }
    }

    method SettleTurn(w: nat, answer: Option<R>, ghost answers: seq<Option<R>>)
      requires Enabled(View(), w, Settle) && |answers| == results.Length
      requires answer == answers[workers[w].index]
      modifies results, workers
      ensures View() == Step(old(View()), answers, w, Settle)
    {
      if answer.Some? {
        results[workers[w].index] := answer;
        workers[w] := Idle;
      } else {
        workers[w] := Thrown;
      }
    }
  }
}
