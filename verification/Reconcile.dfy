/** `reconcileVerification`: compare every NGO's flag with the contract's, and optionally fix it. */
module Reconcile {
  import opened Wrappers
  import opened WorkerPool

  const RPC_CONCURRENCY := 5

  datatype Ngo = Ngo(id: string, owner: string, verified: bool)

  datatype Mismatch = Mismatch(ngoId: string, owner: string, dbVerified: bool, onChainVerified: bool)

  /** What the contract says; an owner it does not know is not in the map. */
  type OnChain = map<string, bool>

  /** The mapped function's result for one NGO. */
  function Check(ngo: Ngo, chain: OnChain): Option<Mismatch> {
    if ngo.owner !in chain || chain[ngo.owner] == ngo.verified then None
    else Some(Mismatch(ngo.id, ngo.owner, ngo.verified, chain[ngo.owner]))
  }

  function Fixed(ngo: Ngo, chain: OnChain): Ngo {
    if ngo.owner in chain then ngo.(verified := chain[ngo.owner]) else ngo
  }

  /** `readable[i]`: the contract call for NGO i does not fail. */
  function Answers(ngos: seq<Ngo>, chain: OnChain, readable: seq<bool>): (r: seq<Option<Option<Mismatch>>>)
    requires |readable| == |ngos|
    ensures |r| == |ngos|
  {
    seq(|ngos|, i requires 0 <= i < |ngos| => if readable[i] then Some(Check(ngos[i], chain)) else None)
  }

  datatype State = State(pool: Pool<Option<Mismatch>>, table: map<string, Ngo>)

  /** The database write of a mismatch happens within its own mapped call. */
  ghost predicate Next(ngos: seq<Ngo>, chain: OnChain, readable: seq<bool>, fix: bool, s: State, w: nat, turn: Turn,
                       s': State)
    requires |readable| == |ngos|
  {
    var answers := Answers(ngos, chain, readable);
    && |s.pool.results| == |ngos| && Enabled(s.pool, w, turn)
    && s'.pool == Step(s.pool, answers, w, turn)
    && s'.table ==
         if turn.Settle? && fix && readable[s.pool.workers[w].index]
           && Check(ngos[s.pool.workers[w].index], chain).Some?
         then s.table[ngos[s.pool.workers[w].index].id := Fixed(ngos[s.pool.workers[w].index], chain)]
         else s.table
  }

  ghost predicate IdsUnique(ngos: seq<Ngo>) {
    forall i, j :: 0 <= i < j < |ngos| ==> ngos[i].id != ngos[j].id
  }

  /** The table is the start table with the settled mismatches fixed. */
  ghost predicate TableFits(ngos: seq<Ngo>, chain: OnChain, fix: bool, results: seq<Option<Option<Mismatch>>>,
                            table: map<string, Ngo>)
    requires |results| == |ngos|
  {
    && (forall i :: 0 <= i < |ngos| ==>
          && ngos[i].id in table
          && table[ngos[i].id] == if fix && results[i].Some? then Fixed(ngos[i], chain) else ngos[i])
    && (forall id <- table :: exists i :: 0 <= i < |ngos| && ngos[i].id == id)
  }

  ghost predicate Inv(ngos: seq<Ngo>, chain: OnChain, readable: seq<bool>, fix: bool, s: State)
    requires |readable| == |ngos|
  {
    && WorkerPool.Inv(s.pool, Answers(ngos, chain, readable))
    && TableFits(ngos, chain, fix, s.pool.results, s.table)
  }

  /** Settling one NGO's result rewrites that NGO's row alone. */
  lemma SettleFits(ngos: seq<Ngo>, chain: OnChain, fix: bool, results: seq<Option<Option<Mismatch>>>,
                   table: map<string, Ngo>,
                   i: nat, answer: Option<Mismatch>)
    requires |results| == |ngos| && IdsUnique(ngos) && TableFits(ngos, chain, fix, results, table)
    requires i < |ngos| && results[i].None? && answer == Check(ngos[i], chain)
    ensures TableFits(ngos, chain, fix, results[i := Some(answer)],
                      if fix && answer.Some? then table[ngos[i].id := Fixed(ngos[i], chain)] else table)
  {
    assert forall j :: 0 <= j < |ngos| && j != i ==> ngos[j].id != ngos[i].id;
  }

  /** Only a settled call that did not throw changes the results, at its own index. */
  lemma TurnSettlesOne(p: Pool<Option<Mismatch>>, answers: seq<Option<Option<Mismatch>>>, w: nat, turn: Turn)
    requires WorkerPool.Inv(p, answers) && Enabled(p, w, turn)
    ensures |Step(p, answers, w, turn).workers| == |p.workers|
    ensures Step(p, answers, w, turn).results ==
      if turn.Settle? && answers[p.workers[w].index].Some?
      then p.results[p.workers[w].index := answers[p.workers[w].index]] else p.results
    ensures turn.Settle? ==> p.results[p.workers[w].index].None?
  {
  }

  lemma NextKeepsInv(ngos: seq<Ngo>, chain: OnChain, readable: seq<bool>, fix: bool, s: State, w: nat, turn: Turn,
                     s': State)
    requires |readable| == |ngos| && IdsUnique(ngos) && Inv(ngos, chain, readable, fix, s)
    requires Next(ngos, chain, readable, fix, s, w, turn, s')
    ensures Inv(ngos, chain, readable, fix, s') && |s'.pool.workers| == |s.pool.workers|
  {
    var answers := Answers(ngos, chain, readable);
    StepKeepsInv(s.pool, answers, w, turn);
    TurnSettlesOne(s.pool, answers, w, turn);
    if turn.Settle? {
      var i := s.pool.workers[w].index;
      SettleFits(ngos, chain, fix, s.pool.results, s.table, i, Check(ngos[i], chain));
    }
  }

  ghost predicate IsRun(ngos: seq<Ngo>, chain: OnChain, readable: seq<bool>, fix: bool, ss: seq<State>,
                        turns: seq<(nat, Turn)>)
    requires |readable| == |ngos|
  {
    && |ss| == |turns| + 1
    && forall k {:trigger turns[k]} :: 0 <= k < |turns| ==>
         Next(ngos, chain, readable, fix, ss[k], turns[k].0, turns[k].1, ss[k + 1])
  }

  ghost predicate Initial(ngos: seq<Ngo>, s: State) {
    && s.pool == Start<Option<Mismatch>>(|ngos|, RPC_CONCURRENCY)
    && (forall i :: 0 <= i < |ngos| ==> ngos[i].id in s.table && s.table[ngos[i].id] == ngos[i])
    && (forall id <- s.table :: exists i :: 0 <= i < |ngos| && ngos[i].id == id)
  }

  lemma {:induction false} RunKeepsInv(ngos: seq<Ngo>, chain: OnChain, readable: seq<bool>, fix: bool, ss: seq<State>,
                                       turns: seq<(nat, Turn)>, k: nat)
    requires |readable| == |ngos| && IdsUnique(ngos) && IsRun(ngos, chain, readable, fix, ss, turns)
      && Initial(ngos, ss[0]) && k < |ss|
    ensures Inv(ngos, chain, readable, fix, ss[k]) && |ss[k].pool.workers| == Limit(RPC_CONCURRENCY, |ngos|)
  {
    if k == 0 {
      StartInv(Answers(ngos, chain, readable), RPC_CONCURRENCY);
    } else {
      RunKeepsInv(ngos, chain, readable, fix, ss, turns, k - 1);
      NextKeepsInv(ngos, chain, readable, fix, ss[k - 1], turns[k - 1].0, turns[k - 1].1, ss[k]);
    }
  }

  ghost predicate AllFinished(s: State) {
    forall w :: 0 <= w < |s.pool.workers| ==> s.pool.workers[w].Finished?
  }

  /** `results.filter`: the report's mismatches, in the order of the NGOs. */
  function Mismatches(results: seq<Option<Option<Mismatch>>>): seq<Mismatch> {
    if results == [] then []
    else
      var last := results[|results| - 1];
      Mismatches(results[..|results| - 1]) + if last.Some? && last.value.Some? then [last.value.value] else []
  }

  function Expected(ngos: seq<Ngo>, chain: OnChain): seq<Mismatch> {
    if ngos == [] then []
    else
      var last := Check(ngos[|ngos| - 1], chain);
      Expected(ngos[..|ngos| - 1], chain) + if last.Some? then [last.value] else []
  }

  lemma {:induction false} ReportIsExpected(ngos: seq<Ngo>, chain: OnChain, results: seq<Option<Option<Mismatch>>>)
    requires |results| == |ngos| && forall i :: 0 <= i < |ngos| ==> results[i] == Some(Check(ngos[i], chain))
    ensures Mismatches(results) == Expected(ngos, chain)
  {
    if ngos != [] {
      ReportIsExpected(ngos[..|ngos| - 1], chain, results[..|results| - 1]);
    }
  }

  /** The contract knows this owner and says otherwise than the table. */
  predicate Differs(ngo: Ngo, chain: OnChain) { ngo.owner in chain && chain[ngo.owner] != ngo.verified }

  /** A report line about an NGO: its id and owner, what the table says and what the contract says. */
  predicate ReportsOn(m: Mismatch, ngo: Ngo, chain: OnChain) {
    && Differs(ngo, chain)
    && m.ngoId == ngo.id && m.owner == ngo.owner
    && m.dbVerified == ngo.verified && m.onChainVerified == chain[ngo.owner]
  }

  /** The lines are about the NGOs at these places of the table, in that order, and no other differs. */
  ghost predicate ReportFits(report: seq<Mismatch>, ngos: seq<Ngo>, chain: OnChain, at: seq<nat>) {
    && |at| == |report|
    && (forall k :: 0 <= k < |at| ==> at[k] < |ngos| && ReportsOn(report[k], ngos[at[k]], chain))
    && (forall j, k :: 0 <= j < k < |at| ==> at[j] < at[k])
    && (forall i :: 0 <= i < |ngos| && Differs(ngos[i], chain) ==> i in at)
  }

  lemma {:induction false} ExpectedFits(ngos: seq<Ngo>, chain: OnChain) returns (at: seq<nat>)
    ensures ReportFits(Expected(ngos, chain), ngos, chain, at)
  {
    if ngos == [] {
      at := [];
    } else {
      var n := |ngos| - 1;
      at := ExpectedFits(ngos[..n], chain);
      if Differs(ngos[n], chain) {
        at := at + [n];
      }
    }
  }

  /** What a fix leaves of a row: all but the flag, which is the contract's where it knows the owner. */
  predicate IsFixed(before: Ngo, after: Ngo, chain: OnChain) {
    && after.id == before.id && after.owner == before.owner
    && (before.owner in chain ==> after.verified == chain[before.owner])
    && (before.owner !in chain ==> after.verified == before.verified)
  }

  /** The report is the one a sequential pass would give. */
  lemma FinishedRunIsExpected(ngos: seq<Ngo>, chain: OnChain, readable: seq<bool>, fix: bool, ss: seq<State>,
                              turns: seq<(nat, Turn)>)
    requires |readable| == |ngos| && IdsUnique(ngos) && IsRun(ngos, chain, readable, fix, ss, turns)
      && Initial(ngos, ss[0])
    requires AllFinished(ss[|turns|]) && forall i :: 0 <= i < |ngos| ==> readable[i]
    ensures Mismatches(ss[|turns|].pool.results) == Expected(ngos, chain)
    ensures forall i :: 0 <= i < |ngos| ==>
      ngos[i].id in ss[|turns|].table && ss[|turns|].table[ngos[i].id] == if fix then Fixed(ngos[i], chain) else ngos[i]
  {
    RunKeepsInv(ngos, chain, readable, fix, ss, turns, |turns|);
    var p := ss[|turns|].pool;
    var answers := Answers(ngos, chain, readable);
    if |ngos| > 0 {
      assert p.workers[0].Finished?;
    }
    forall i | 0 <= i < |ngos| ensures p.results[i] == Some(Check(ngos[i], chain)) {
      assert answers[i].Some?;
      DoneOrBusy(p, answers, i);
    }
    ReportIsExpected(ngos, chain, p.results);
  }

  /**
   A finished run reports the mismatches in table order, whatever the completion order was,
   each with the table's flag and the contract's; with `fix` every known row has the contract's.
   */
  lemma FinishedRunReportsAll(ngos: seq<Ngo>, chain: OnChain, readable: seq<bool>, fix: bool, ss: seq<State>,
                              turns: seq<(nat, Turn)>)
    returns (at: seq<nat>)
    requires |readable| == |ngos| && IdsUnique(ngos) && IsRun(ngos, chain, readable, fix, ss, turns)
      && Initial(ngos, ss[0])
    requires AllFinished(ss[|turns|]) && forall i :: 0 <= i < |ngos| ==> readable[i]
    ensures ReportFits(Mismatches(ss[|turns|].pool.results), ngos, chain, at)
    ensures forall i :: 0 <= i < |ngos| ==>
      && ngos[i].id in ss[|turns|].table
      && (fix ==> IsFixed(ngos[i], ss[|turns|].table[ngos[i].id], chain))
      && (!fix ==> ss[|turns|].table[ngos[i].id] == ngos[i])
  {
    FinishedRunIsExpected(ngos, chain, readable, fix, ss, turns);
    at := ExpectedFits(ngos, chain);
  }

  lemma {:induction false} NothingExpected(ngos: seq<Ngo>, chain: OnChain)
    requires forall i :: 0 <= i < |ngos| ==> Check(ngos[i], chain).None?
    ensures Expected(ngos, chain) == []
  {
    if ngos != [] {
      NothingExpected(ngos[..|ngos| - 1], chain);
    }
  }

  /** Rows read from a table in which every listed NGO is fixed have nothing to report. */
  lemma FixedRowsMatch(ngos: seq<Ngo>, chain: OnChain, table: map<string, Ngo>, ngos': seq<Ngo>)
    requires forall i :: 0 <= i < |ngos| ==> ngos[i].id in table && table[ngos[i].id] == Fixed(ngos[i], chain)
    requires forall id <- table :: exists i :: 0 <= i < |ngos| && ngos[i].id == id
    requires forall i :: 0 <= i < |ngos'| ==> ngos'[i].id in table && table[ngos'[i].id] == ngos'[i]
    ensures Expected(ngos', chain) == []
  {
    forall i | 0 <= i < |ngos'| ensures Check(ngos'[i], chain).None? {
      var id := ngos'[i].id;
      assert id in table;
      var j :| 0 <= j < |ngos| && ngos[j].id == id;
      assert ngos'[i] == Fixed(ngos[j], chain);
    }
    NothingExpected(ngos', chain);
  }

  lemma RunAddsNoRow(ngos: seq<Ngo>, chain: OnChain, readable: seq<bool>, fix: bool, ss: seq<State>,
                     turns: seq<(nat, Turn)>)
    requires |readable| == |ngos| && IdsUnique(ngos) && IsRun(ngos, chain, readable, fix, ss, turns)
      && Initial(ngos, ss[0])
    ensures forall id <- ss[|turns|].table :: exists i :: 0 <= i < |ngos| && ngos[i].id == id
  {
    RunKeepsInv(ngos, chain, readable, fix, ss, turns, |turns|);
  }

  /** After a finished `--fix` run, and with the contract unchanged, a second run finds nothing. */
  lemma SecondRunIsClean(ngos: seq<Ngo>, chain: OnChain, readable: seq<bool>, ss: seq<State>, turns: seq<(nat, Turn)>,
                         ngos': seq<Ngo>, readable': seq<bool>, fix': bool, ss': seq<State>, turns': seq<(nat, Turn)>)
    requires |readable| == |ngos| && IdsUnique(ngos) && IsRun(ngos, chain, readable, true, ss, turns)
      && Initial(ngos, ss[0])
    requires AllFinished(ss[|turns|]) && forall i :: 0 <= i < |ngos| ==> readable[i]
    requires |readable'| == |ngos'| && IdsUnique(ngos') && IsRun(ngos', chain, readable', fix', ss', turns')
      && Initial(ngos', ss'[0])
    requires AllFinished(ss'[|turns'|]) && forall i :: 0 <= i < |ngos'| ==> readable'[i]
    requires ss'[0].table == ss[|turns|].table
    ensures Mismatches(ss'[|turns'|].pool.results) == []
  {
    FinishedRunIsExpected(ngos, chain, readable, true, ss, turns);
    FinishedRunIsExpected(ngos', chain, readable', fix', ss', turns');
    RunAddsNoRow(ngos, chain, readable, true, ss, turns);
    FixedRowsMatch(ngos, chain, ss[|turns|].table, ngos');
  }
}
