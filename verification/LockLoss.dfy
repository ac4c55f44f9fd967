/** Exactly when a failed lock connection lets workers get in each other's way. */
module LockLoss {
  import opened Wrappers
  import opened ChainLog
  import opened LockProtocol

  predicate Waiting(p: Proc) { p.alive && p.timer && p.phase.Idle? && !p.stopped }

  // ---------- two workers in a poll at once ----------

  /** With no further failure, `w` is still in the same poll when `v` is in one too. */
  ghost predicate Overlaps(xs: seq<System>, es: seq<Event>, w: nat, v: nat) {
    && IsRun(xs, es) && NoFailure(xs, es)
    && (forall k :: 0 <= k < |xs| ==> w < |xs[k].procs| && xs[k].procs[w].phase.Polling?)
    && v < |xs[|es|].procs| && xs[|es|].procs[v].phase.Polling?
  }

  ghost predicate CanOverlap(s: System, w: nat, v: nat) {
    exists xs, es :: Overlaps(xs, es, w, v) && xs[0] == s
  }

  /** `w` polls as the server's holder, and `v` neither polls nor has a handle. */
  ghost predicate Shut(s: System, w: nat, v: nat) {
    && Sound(s) && Backed(s, w) && v < |s.procs|
    && !InUse(s.procs[v]) && !s.procs[v].phase.Polling?
  }

  lemma StepStaysShut(s: System, e: Event, w: nat, v: nat)
    requires Shut(s, w, v) && w != v && Enabled(s, e) && !Fails(s, e)
    requires w < |Step(s, e).procs| && Step(s, e).procs[w].phase.Polling?
    ensures Shut(Step(s, e), w, v)
  {
    StepKeepsSound(s, e);
    StepMovesOne(s, e);
  }

  lemma {:induction false} RunStaysShut(xs: seq<System>, es: seq<Event>, k: nat, w: nat, v: nat)
    requires Overlaps(xs, es, w, v) && Shut(xs[0], w, v) && w != v && k < |xs|
    ensures Shut(xs[k], w, v)
  {
    if k > 0 {
      RunStaysShut(xs, es, k - 1, w, v);
      StepStaysShut(xs[k - 1], es[k - 1], w, v);
    }
  }

  lemma ShutNeverOverlaps(xs: seq<System>, es: seq<Event>, w: nat, v: nat)
    requires |xs| == |es| + 1 && Shut(xs[0], w, v) && w != v
    ensures !Overlaps(xs, es, w, v)
  {
    if Overlaps(xs, es, w, v) {
      RunStaysShut(xs, es, |es|, w, v);
    }
  }

  lemma ContinuesOn(xs: seq<System>, es: seq<Event>, ys: seq<System>, fs: seq<Event>, zs: seq<System>, gs: seq<Event>,
                    w: nat)
    requires Continues(xs, es, ys, fs, w) && Continues(ys, fs, zs, gs, w)
    ensures Continues(xs, es, zs, gs, w)
  {
  }

  lemma OneStepContinues(xs: seq<System>, es: seq<Event>, e: Event, w: nat)
    requires |xs| == |es| + 1 && Enabled(xs[|es|], e) && !Fails(xs[|es|], e) && w < |xs[|es|].procs|
    requires e.w != w || e.action.SessionEnds?
    ensures Continues(xs, es, xs + [Step(xs[|es|], e)], es + [e], w)
  {
    StepMovesOne(xs[|es|], e);
  }

  /** A living worker other than these two can always die. */
  lemma CrashHolder(xs: seq<System>, es: seq<Event>, v: nat, w: nat) returns (ys: seq<System>, fs: seq<Event>)
    requires IsRun(xs, es) && Sound(xs[|es|]) && v < |xs[|es|].procs| && w < |xs[|es|].procs|
    requires forall u :: u in {v, w} && xs[|es|].holder == Some(u) ==> !InUse(xs[|es|].procs[u])
    ensures IsRun(ys, fs) && Continues(xs, es, ys, fs, w) && |ys[|fs|].procs| == |xs[|es|].procs|
    ensures var s := ys[|fs|];
            && s.procs[v] == xs[|es|].procs[v] && s.disk == xs[|es|].disk
            && s.holder == xs[|es|].holder
            && (s.holder.Some? ==> s.holder.value < |s.procs| && !InUse(s.procs[s.holder.value]))
    ensures forall k :: |es| <= k < |fs| ==> !fs[k].action.Process?
  {
    var s := xs[|es|];
    ys, fs := xs, es;
    if s.holder.Some? && InUse(s.procs[s.holder.value]) {
      OneStepContinues(xs, es, Event(s.holder.value, Crash), w);
      ys, fs := Extend(xs, es, s.holder.value, Crash);
    }
  }

  /** So a lock nobody of these two relies on can always come free, without a failure. */
  lemma FreeTheLock(xs: seq<System>, es: seq<Event>, v: nat, w: nat) returns (ys: seq<System>, fs: seq<Event>)
    requires IsRun(xs, es) && Sound(xs[|es|]) && v < |xs[|es|].procs| && w < |xs[|es|].procs|
    requires forall u :: u in {v, w} && xs[|es|].holder == Some(u) ==> !InUse(xs[|es|].procs[u])
    ensures IsRun(ys, fs) && Continues(xs, es, ys, fs, w) && |ys[|fs|].procs| == |xs[|es|].procs|
    ensures ys[|fs|].holder.None? && ys[|fs|].procs[v] == xs[|es|].procs[v] && ys[|fs|].disk == xs[|es|].disk
    ensures forall k :: |es| <= k < |fs| ==> !fs[k].action.Process?
  {
    ys, fs := CrashHolder(xs, es, v, w);
    var s := ys[|fs|];
    if s.holder.Some? {
      var e := Event(s.holder.value, SessionEnds);
      OneStepContinues(ys, fs, e, w);
      var zs, gs := Extend(ys, fs, e.w, e.action);
      ContinuesOn(xs, es, ys, fs, zs, gs, w);
      ys, fs := zs, gs;
    }
  }

  /**
   A waiting worker comes to poll: on a handle it still believes in, or beside a worker that
   does not hold the lock.
   */
  lemma WaitingCanPoll(xs: seq<System>, es: seq<Event>, v: nat, w: nat) returns (ys: seq<System>, fs: seq<Event>)
    requires IsRun(xs, es) && Sound(xs[|es|]) && v < |xs[|es|].procs| && w < |xs[|es|].procs| && v != w
    requires Waiting(xs[|es|].procs[v])
    requires xs[|es|].procs[v].lock.Held? || xs[|es|].holder != Some(w) || !InUse(xs[|es|].procs[w])
    ensures IsRun(ys, fs) && Continues(xs, es, ys, fs, w) && |ys[|fs|].procs| == |xs[|es|].procs|
    ensures ys[|fs|].procs[v] == xs[|es|].procs[v].(timer := false, phase := Polling, lock := Held)
    ensures ys[|fs|].disk == xs[|es|].disk
    ensures forall k :: |es| <= k < |fs| ==> !fs[k].action.Process?
  {
    if xs[|es|].procs[v].lock.Held? {
      OneStepContinues(xs, es, Event(v, Fire), w);
      ys, fs := Extend(xs, es, v, Fire);
    } else {
      var xs1, es1 := FreeTheLock(xs, es, v, w);
      ys, fs := TakeLock(xs1, es1, v, w);
      ContinuesOn(xs, es, xs1, es1, ys, fs, w);
      NoneProcess(xs, es, es1, fs);
    }
  }

  lemma NoneProcess(xs: seq<System>, es: seq<Event>, es1: seq<Event>, fs: seq<Event>)
    requires es <= es1 <= fs
    requires forall k :: |es| <= k < |es1| ==> !es1[k].action.Process?
    requires forall k :: |es1| <= k < |fs| ==> fs[k].action in {Fire, Query, Answer}
    ensures forall k :: |es| <= k < |fs| ==> !fs[k].action.Process?
  {
    forall k | |es| <= k < |fs| ensures !fs[k].action.Process? {
      if k < |es1| {
        assert fs[k] == es1[k];
      }
    }
  }

  /**
   A waiting worker can join a polling one iff the polling one is not the server's holder on a
   handle it believes in, or the waiting one still believes in a handle of its own.
   */
  lemma OverlapIff(ys: seq<System>, fs: seq<Event>, k: nat, w: nat, v: nat)
    requires IsRun(ys, fs) && Initial(ys[0]) && k < |ys| && w != v
    requires w < |ys[k].procs| && v < |ys[k].procs|
    requires ys[k].procs[w].phase.Polling? && Waiting(ys[k].procs[v])
    ensures CanOverlap(ys[k], w, v) <==> !Backed(ys[k], w) || ys[k].procs[v].lock.Held?
  {
    var s := ys[k];
    RunKeepsSound(ys, fs, k);
    if !Backed(s, w) || s.procs[v].lock.Held? {
      var xs, es := WaitingCanPoll([s], [], v, w);
      assert Overlaps(xs, es, w, v);
    } else if CanOverlap(s, w, v) {
      var xs, es :| Overlaps(xs, es, w, v) && xs[0] == s;
      ShutNeverOverlaps(xs, es, w, v);
    }
  }

  // ---------- polling from a cursor behind the checkpoint ----------

  predicate Behind(c: Chain, p: Option<Position>, q: Option<Position>) {
    p.Some? && q.Some? && Index(c, p.value) < Index(c, q.value)
  }

  /** Nobody who handles an event goes back in the log by it. */
  ghost predicate Onward(c: Chain, xs: seq<System>, es: seq<Event>, n: nat)
    requires |es| < |xs|
  {
    forall k {:trigger es[k]} :: n <= k < |es| && es[k].action.Process? ==>
      && es[k].w < |xs[k].procs| && xs[k].procs[es[k].w].cursor.Some?
      && Index(c, xs[k].procs[es[k].w].cursor.value) <= Index(c, es[k].action.next)
  }

  /**
   With no further failure and everybody moving onward, `w` ends up polling from the cursor it
   had all along, and that lies behind the saved checkpoint.
   */
  ghost predicate GoesStale(c: Chain, xs: seq<System>, es: seq<Event>, w: nat) {
    && IsRun(xs, es) && NoFailure(xs, es) && Onward(c, xs, es, 0) && w < |xs[0].procs|
    && (forall k :: 0 <= k < |xs| ==> w < |xs[k].procs| && xs[k].procs[w].cursor == xs[0].procs[w].cursor)
    && xs[|es|].procs[w].phase.Polling?
    && Behind(c, xs[|es|].procs[w].cursor, xs[|es|].disk)
  }

  ghost predicate CanGoStale(c: Chain, s: System, w: nat) {
    exists xs, es :: GoesStale(c, xs, es, w) && xs[0] == s
  }

  /** This worker polls, or can without asking the server for the lock again. */
  predicate CanPoll(p: Proc) {
    || p.phase.Polling?
    || (Waiting(p) && p.lock.Held?)
    || (p.phase.Answered? && p.phase.granted && !p.stopped)
  }

  /** `w` is gone, or it is the server's holder, nobody else can poll, and it is not behind. */
  ghost predicate Alone(c: Chain, s: System, w: nat) {
    && Sound(s) && w < |s.procs|
    && (|| Gone(s.procs[w])
        || (&& Backed(s, w) && !Behind(c, s.procs[w].cursor, s.disk)
            && forall u :: 0 <= u < |s.procs| && u != w ==> !CanPoll(s.procs[u])))
  }

  lemma GoneStays(s: System, e: Event, w: nat)
    requires Sound(s) && Enabled(s, e) && w < |s.procs| && Gone(s.procs[w])
    ensures w < |Step(s, e).procs| && Gone(Step(s, e).procs[w])
  {
    StepMovesOne(s, e);
  }

  lemma HolderMoves(c: Chain, s: System, e: Event, w: nat)
    requires Alone(c, s, w) && !Gone(s.procs[w]) && Enabled(s, e) && !Fails(s, e) && e.w == w
    requires w < |Step(s, e).procs| && Step(s, e).procs[w].cursor == s.procs[w].cursor && s.procs[w].cursor.Some?
    ensures var s' := Step(s, e);
            Gone(s'.procs[w]) || (Backed(s', w) && !Behind(c, s'.procs[w].cursor, s'.disk))
  {
  }

  lemma OtherMoves(s: System, e: Event, w: nat)
    requires Sound(s) && Backed(s, w) && Enabled(s, e) && e.w != w && !CanPoll(s.procs[e.w])
    ensures var s' := Step(s, e);
            s'.holder == s.holder && s'.disk == s.disk && e.w < |s'.procs| && !CanPoll(s'.procs[e.w])
  {
  }

  lemma StepStaysAlone(c: Chain, s: System, e: Event, w: nat)
    requires Alone(c, s, w) && Enabled(s, e) && !Fails(s, e)
    requires w < |Step(s, e).procs| && Step(s, e).procs[w].cursor == s.procs[w].cursor && s.procs[w].cursor.Some?
    ensures Alone(c, Step(s, e), w)
  {
    StepKeepsSound(s, e);
    StepMovesOne(s, e);
    if Gone(s.procs[w]) {
      GoneStays(s, e, w);
    } else if e.w == w {
      HolderMoves(c, s, e, w);
    } else {
      OtherMoves(s, e, w);
    }
  }

  lemma {:induction false} RunStaysAlone(c: Chain, xs: seq<System>, es: seq<Event>, k: nat, w: nat)
    requires GoesStale(c, xs, es, w) && Alone(c, xs[0], w) && k < |xs|
    ensures Alone(c, xs[k], w)
  {
    if k > 0 {
      RunStaysAlone(c, xs, es, k - 1, w);
      StepStaysAlone(c, xs[k - 1], es[k - 1], w);
    }
  }

  lemma AloneNeverGoesStale(c: Chain, xs: seq<System>, es: seq<Event>, w: nat)
    requires |xs| == |es| + 1 && Alone(c, xs[0], w)
    ensures !GoesStale(c, xs, es, w)
  {
    if GoesStale(c, xs, es, w) {
      RunStaysAlone(c, xs, es, |es|, w);
    }
  }

  /** A polling worker saves this position. */
  lemma SaveOnce(c: Chain, xs: seq<System>, es: seq<Event>, u: nat, w: nat, next: Position)
    returns (ys: seq<System>, fs: seq<Event>)
    requires IsRun(xs, es) && u < |xs[|es|].procs| && w < |xs[|es|].procs| && u != w
    requires xs[|es|].procs[u].phase.Polling? && xs[|es|].procs[u].alive
    requires forall p :: p in {xs[|es|].procs[u].cursor, xs[|es|].disk} && p.Some? ==> Behind(c, p, Some(next))
    ensures IsRun(ys, fs) && Continues(xs, es, ys, fs, w) && Onward(c, ys, fs, |es|)
    ensures ys[|fs|].disk == Some(next)
  {
    var xs1, es1 := xs, es;
    if xs[|es|].procs[u].cursor.None? {
      OneStepContinues(xs, es, Event(u, ReadCheckpoint(next)), w);
      xs1, es1 := Extend(xs, es, u, ReadCheckpoint(next));
    }
    OneStepContinues(xs1, es1, Event(u, Process(next, true)), w);
    ys, fs := Extend(xs1, es1, u, Process(next, true));
    ContinuesOn(xs, es, xs1, es1, ys, fs, w);
  }

  /** Somebody other than `w` comes to poll, and `w` stays as it is. */
  lemma SomebodyPolls(s: System, w: nat, v: nat) returns (u: nat, xs: seq<System>, es: seq<Event>)
    requires Sound(s) && w < |s.procs| && v < |s.procs| && w != v && Waiting(s.procs[w]) && Waiting(s.procs[v])
    requires !Backed(s, w) || exists u :: 0 <= u < |s.procs| && u != w && CanPoll(s.procs[u])
    ensures IsRun(xs, es) && Continues([s], [], xs, es, w)
    ensures xs[|es|].disk == s.disk && forall k :: 0 <= k < |es| ==> !es[k].action.Process?
    ensures u != w && u < |s.procs| && u < |xs[|es|].procs|
    ensures xs[|es|].procs[u].phase.Polling? && xs[|es|].procs[u].alive
    ensures xs[|es|].procs[u].cursor == s.procs[u].cursor
  {
    if !Backed(s, w) {
      u := v;
      xs, es := WaitingCanPoll([s], [], v, w);
    } else {
      u :| 0 <= u < |s.procs| && u != w && CanPoll(s.procs[u]);
      xs, es := [s], [];
      if !s.procs[u].phase.Polling? {
        var e := Event(u, if s.procs[u].phase.Answered? then Answer else Fire);
        OneStepContinues([s], [], e, w);
        xs, es := Extend([s], [], u, e.action);
      }
    }
  }

  /** A waiting worker comes to poll in any case, from the cursor it has. */
  lemma PollsAtLast(c: Chain, xs: seq<System>, es: seq<Event>, w: nat, v: nat)
    returns (ys: seq<System>, fs: seq<Event>)
    requires IsRun(xs, es) && Sound(xs[|es|]) && w < |xs[|es|].procs| && Waiting(xs[|es|].procs[w])
    requires v < |xs[|es|].procs| && v != w
    ensures IsRun(ys, fs) && xs <= ys && es <= fs && Onward(c, ys, fs, |es|)
    ensures forall k {:trigger fs[k]} :: |es| <= k < |fs| ==> !Fails(ys[k], fs[k])
    ensures forall k :: |xs| <= k < |ys| ==>
      w < |ys[k].procs| && ys[k].procs[w].cursor == xs[|es|].procs[w].cursor
    ensures w < |ys[|fs|].procs| && ys[|fs|].procs[w].phase.Polling? && ys[|fs|].disk == xs[|es|].disk
    ensures ys[|fs|].procs[w].cursor == xs[|es|].procs[w].cursor
  {
    if xs[|es|].procs[w].lock.Held? {
      ys, fs := Extend(xs, es, w, Fire);
    } else {
      var xs1, es1 := FreeTheLock(xs, es, w, w);
      ys, fs := TakeLock(xs1, es1, w, v);
      NoneProcess(xs, es, es1, fs);
    }
  }

  lemma Joined(c: Chain, s: System, xs: seq<System>, es: seq<Event>, ys: seq<System>, fs: seq<Event>, w: nat)
    requires IsRun(xs, es) && Continues([s], [], xs, es, w) && Onward(c, xs, es, 0) && w < |s.procs|
    requires IsRun(ys, fs) && xs <= ys && es <= fs && Onward(c, ys, fs, |es|)
    requires forall k {:trigger fs[k]} :: |es| <= k < |fs| ==> !Fails(ys[k], fs[k])
    requires forall k :: |xs| <= k < |ys| ==> w < |ys[k].procs| && ys[k].procs[w].cursor == s.procs[w].cursor
    requires w < |ys[|fs|].procs| && ys[|fs|].procs[w].phase.Polling?
    requires Behind(c, ys[|fs|].procs[w].cursor, ys[|fs|].disk)
    ensures CanGoStale(c, s, w)
  {
    forall k | 0 <= k < |fs| ensures !Fails(ys[k], fs[k]) {
      if k < |es| {
        assert es[k] == fs[k] && xs[k] == ys[k];
      }
    }
    forall k | 0 <= k < |ys| ensures w < |ys[k].procs| && ys[k].procs[w].cursor == s.procs[w].cursor {
      if k < |xs| {
        assert xs[k] == ys[k];
      }
    }
    assert Onward(c, ys, fs, 0);
    assert GoesStale(c, ys, fs, w);
  }

  /** This position lies ahead of all that was handled or saved. */
  ghost predicate Ahead(c: Chain, s: System, next: Position) {
    && (s.disk.Some? ==> Behind(c, s.disk, Some(next)))
    && forall u :: 0 <= u < |s.procs| && s.procs[u].cursor.Some? ==> Behind(c, s.procs[u].cursor, Some(next))
  }

  lemma OvertakenAndPolls(c: Chain, s: System, w: nat, v: nat, next: Position)
    requires Sound(s) && w < |s.procs| && v < |s.procs| && w != v && Waiting(s.procs[w]) && Waiting(s.procs[v])
    requires s.procs[w].cursor.Some? && Ahead(c, s, next)
    requires !Backed(s, w) || exists u :: 0 <= u < |s.procs| && u != w && CanPoll(s.procs[u])
    ensures CanGoStale(c, s, w)
  {
    var u, xs, es := SomebodyPolls(s, w, v);
    var xs1, es1 := SaveOnce(c, xs, es, u, w, next);
    ContinuesOn([s], [], xs, es, xs1, es1, w);
    RunStaysSound(xs1, es1, |es1|);
    var ys, fs := PollsAtLast(c, xs1, es1, w, v);
    Joined(c, s, xs1, es1, ys, fs, w);
  }

  /**
   A waiting worker can come to poll from a cursor behind the checkpoint iff it has a cursor,
   and that is behind already, or the worker is not the server's holder on a handle it believes
   in, or another worker polls or can poll without asking for the lock.
   */
  lemma StaleIff(ys: seq<System>, fs: seq<Event>, k: nat, c: Chain, w: nat, v: nat, next: Position)
    requires IsRun(ys, fs) && Initial(ys[0]) && k < |ys| && w != v
    requires w < |ys[k].procs| && v < |ys[k].procs| && Waiting(ys[k].procs[w]) && Waiting(ys[k].procs[v])
    requires Ahead(c, ys[k], next)
    ensures var s := ys[k];
            CanGoStale(c, s, w) <==>
              && s.procs[w].cursor.Some?
              && (|| Behind(c, s.procs[w].cursor, s.disk)
                  || !Backed(s, w)
                  || exists u :: 0 <= u < |s.procs| && u != w && CanPoll(s.procs[u]))
  {
    var s := ys[k];
    RunKeepsSound(ys, fs, k);
    if s.procs[w].cursor.None? {
    } else if !Backed(s, w) || exists u :: 0 <= u < |s.procs| && u != w && CanPoll(s.procs[u]) {
      OvertakenAndPolls(c, s, w, v, next);
    } else if Behind(c, s.procs[w].cursor, s.disk) {
      var xs, es := PollsAtLast(c, [s], [], w, v);
      Joined(c, s, [s], [], xs, es, w);
    } else if CanGoStale(c, s, w) {
      var xs, es :| GoesStale(c, xs, es, w) && xs[0] == s;
      AloneNeverGoesStale(c, xs, es, w);
    }
  }
}
