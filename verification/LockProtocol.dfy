/**
 Several processes running `startIndexer` against one database, one statement at a time.
 A worker's asynchronous poll is split where it awaits: at the lock query, at the answer,
 and at each database access of `pollOnce`; `stop` runs beside it.
 */
module LockProtocol {
  import opened Wrappers
  import opened ChainLog

  /** Where a worker's running poll is; `Answered` is between the server's grant and the client. */
  datatype Phase = Idle | Connecting | Answered(granted: bool) | Polling

  datatype Stop = NotCalled | Waiting | Resolved

  /**
   A worker's lock handle: none, one it believes it holds, or one whose connection it has seen
   fail. The server ends a session on its own (`SessionEnds`); the worker learns of a failed
   connection when its error event arrives (`Notice`), before, after, or never.
   */
  datatype Handle = NoHandle | Held | Lost

  datatype Proc = Proc(
    alive: bool,
    timer: bool,
    stopped: bool,
    stop: Stop,
    phase: Phase,
    lock: Handle,
    cursor: Option<Position>)

  /** `holder`: whose session has the lock at the server, be that worker alive or not. */
  datatype System = System(procs: seq<Proc>, holder: Option<nat>, disk: Option<Position>)

  datatype Action =
    | Fire
    | Query
    | QueryFails
    | Answer
    | AnswerFails
    | ReadCheckpoint(first: Position)
    | Process(next: Position, saved: bool)
    | PollEnds
    | CallStop
    | FinishStop
    | Crash
    | SessionEnds
    | Notice

  datatype Event = Event(w: nat, action: Action)

  const FRESH_PROC := Proc(true, true, false, NotCalled, Idle, NoHandle, None)

  function ServerAfterEnd(holder: Option<nat>, w: nat): Option<nat> {
    if holder == Some(w) then None else holder
  }

  /** The `finally` block: the next poll is scheduled unless the worker is stopped. */
  function Settled(p: Proc): Proc { p.(phase := Idle, timer := !p.stopped) }

  /** After the lock is there: a stopped worker, or one that saw its connection fail, does not poll. */
  function Gate(p: Proc): Proc {
    if p.stopped || !p.lock.Held? then Settled(p) else p.(phase := Polling)
  }

  predicate Enabled(s: System, e: Event) {
    && e.w < |s.procs|
    && var p := s.procs[e.w];
       if e.action.SessionEnds? then s.holder == Some(e.w)
       else
         && p.alive
         && match e.action
            case Fire => p.timer && p.phase.Idle? && !p.stopped
            case Query => p.phase.Connecting?
            case QueryFails => p.phase.Connecting?
            case Answer => p.phase.Answered?
            case AnswerFails => p.phase.Answered?
            case ReadCheckpoint(_) => p.phase.Polling? && p.cursor.None?
            case Process(_, _) => p.phase.Polling? && p.cursor.Some?
            case PollEnds => p.phase.Polling?
            case CallStop => p.stop.NotCalled?
            case FinishStop => p.stop.Waiting? && p.phase.Idle?
            case Crash => true
            case SessionEnds => true
            case Notice => p.lock.Held?
  }

  function Step(s: System, e: Event): System
    requires Enabled(s, e)
  {
    var p := s.procs[e.w];
    match e.action
    case Fire =>
      // A handle whose connection failed is released and dropped first.
      var p1 := if p.lock.Lost? then p.(lock := NoHandle) else p;
      var p2 := p1.(timer := false);
      s.(procs := s.procs[e.w := if p2.lock.NoHandle? then p2.(phase := Connecting) else Gate(p2)])
    case Query =>
      s.(holder := if s.holder.None? then Some(e.w) else s.holder,
         procs := s.procs[e.w := p.(phase := Answered(s.holder.None?))])
    case QueryFails => s.(procs := s.procs[e.w := Settled(p)])
    case Answer =>
      s.(procs := s.procs[e.w := if p.phase.granted then Gate(p.(lock := Held)) else Settled(p)])
    case AnswerFails => s.(procs := s.procs[e.w := Settled(p)])
    case ReadCheckpoint(first) =>
      s.(procs := s.procs[e.w := p.(cursor := if s.disk.Some? then s.disk else Some(first))])
    case Process(next, saved) =>
      s.(procs := s.procs[e.w := p.(cursor := Some(next))], disk := if saved then Some(next) else s.disk)
    case PollEnds => s.(procs := s.procs[e.w := Settled(p)])
    case CallStop => s.(procs := s.procs[e.w := p.(stopped := true, timer := false, stop := Waiting)])
    case FinishStop =>
      s.(holder := if p.lock.Held? then ServerAfterEnd(s.holder, e.w) else s.holder,
         procs := s.procs[e.w := p.(lock := NoHandle, stop := Resolved)])
    case Crash =>
      s.(procs := s.procs[e.w := p.(alive := false, timer := false, phase := Idle, lock := NoHandle)])
    case SessionEnds => s.(holder := None)
    case Notice => s.(procs := s.procs[e.w := p.(lock := Lost)])
  }

  ghost predicate IsRun(xs: seq<System>, es: seq<Event>) {
    && |xs| == |es| + 1
    && forall k {:trigger es[k]} :: 0 <= k < |es| ==> Enabled(xs[k], es[k]) && xs[k + 1] == Step(xs[k], es[k])
  }

  ghost predicate Initial(s: System) {
    s.holder.None? && forall w :: 0 <= w < |s.procs| ==> s.procs[w] == FRESH_PROC
  }

  // ---------- handles and sessions ----------

  predicate HasHandle(p: Proc) { p.lock.Held? || p.lock.Lost? || (p.phase.Answered? && p.phase.granted) }

  /** The worker relies on its session, or is about to. */
  predicate InUse(p: Proc) { p.lock.Held? || (p.phase.Answered? && p.phase.granted) }

  /** The handle works: the worker believes it has the lock, and the server agrees. */
  predicate Backed(s: System, w: nat) {
    w < |s.procs| && s.procs[w].lock.Held? && s.holder == Some(w)
  }

  /** A connection in use fails, at the server's end or at the worker's. */
  predicate Fails(s: System, e: Event) {
    && e.w < |s.procs|
    && ((e.action.SessionEnds? && InUse(s.procs[e.w])) || (e.action.Notice? && s.holder == Some(e.w)))
  }

  ghost predicate NoFailure(xs: seq<System>, es: seq<Event>)
    requires |xs| == |es| + 1
  {
    forall k {:trigger es[k]} :: 0 <= k < |es| ==> !Fails(xs[k], es[k])
  }

  ghost predicate FailedBefore(xs: seq<System>, es: seq<Event>, n: nat, w: nat)
    requires n <= |es| < |xs|
  {
    exists i :: 0 <= i < n && es[i].w == w && Fails(xs[i], es[i])
  }

  /** One worker's fields fit together. The last line is what `stop` promises. */
  predicate Fits(p: Proc) {
    && (p.phase.Polling? ==> !p.lock.NoHandle?)
    && (p.phase.Connecting? || p.phase.Answered? ==> p.lock.NoHandle?)
    && (p.stop.NotCalled? <==> !p.stopped)
    && (p.stopped || !p.alive ==> !p.timer)
    && (!p.alive ==> p.phase.Idle? && p.lock.NoHandle?)
    && (p.timer ==> p.phase.Idle?)
    && (p.alive && p.phase.Idle? && !p.stopped ==> p.timer)
    && (p.stop.Resolved? ==> p.phase.Idle? && p.lock.NoHandle?)
  }

  /** True in every run. */
  ghost predicate Sound(s: System) {
    && (s.holder.Some? ==> s.holder.value < |s.procs|)
    && forall w :: 0 <= w < |s.procs| ==> Fits(s.procs[w])
  }

  /** Dead or stopped for good. */
  predicate Gone(p: Proc) { !p.alive || p.stop.Resolved? }

  /** True in every run in which no connection in use fails. */
  ghost predicate Exclusive(s: System) {
    && Sound(s)
    && forall w :: 0 <= w < |s.procs| ==>
         var p := s.procs[w];
         && !p.lock.Lost?
         && (InUse(p) ==> s.holder == Some(w))
         && (p.cursor.Some? && !Gone(p) ==> Backed(s, w))
  }

  /** A step moves one worker, and the lock only to or from that worker. */
  lemma StepMovesOne(s: System, e: Event)
    requires Enabled(s, e)
    ensures var s' := Step(s, e);
            && |s'.procs| == |s.procs|
            && (forall w :: 0 <= w < |s.procs| && w != e.w ==> s'.procs[w] == s.procs[w])
            && (|| s'.holder == s.holder
                || (s.holder.None? && s'.holder == Some(e.w))
                || (s.holder == Some(e.w) && s'.holder.None?))
  {
  }

  lemma MoverFits(s: System, e: Event)
    requires Enabled(s, e) && Fits(s.procs[e.w])
    ensures |Step(s, e).procs| == |s.procs| && Fits(Step(s, e).procs[e.w])
  {
  }

  lemma StepKeepsSound(s: System, e: Event)
    requires Sound(s) && Enabled(s, e)
    ensures Sound(Step(s, e)) && |Step(s, e).procs| == |s.procs|
  {
    StepMovesOne(s, e);
    MoverFits(s, e);
  }

  lemma MoverStaysExclusive(s: System, e: Event)
    requires Exclusive(s) && Enabled(s, e) && !Fails(s, e)
    ensures var (s', p) := (Step(s, e), Step(s, e).procs[e.w]);
            && !p.lock.Lost?
            && (InUse(p) ==> s'.holder == Some(e.w))
            && (p.cursor.Some? && !Gone(p) ==> p.lock.Held? && s'.holder == Some(e.w))
  {
  }

  lemma StepKeepsExclusive(s: System, e: Event)
    requires Exclusive(s) && Enabled(s, e) && !Fails(s, e)
    ensures Exclusive(Step(s, e))
  {
    StepKeepsSound(s, e);
    StepMovesOne(s, e);
    MoverStaysExclusive(s, e);
  }

  lemma {:induction false} RunStaysSound(xs: seq<System>, es: seq<Event>, k: nat)
    requires IsRun(xs, es) && Sound(xs[0]) && k < |xs|
    ensures Sound(xs[k]) && |xs[k].procs| == |xs[0].procs|
  {
    if k > 0 {
      RunStaysSound(xs, es, k - 1);
      StepKeepsSound(xs[k - 1], es[k - 1]);
    }
  }

  lemma RunKeepsSound(xs: seq<System>, es: seq<Event>, k: nat)
    requires IsRun(xs, es) && Initial(xs[0]) && k < |xs|
    ensures Sound(xs[k]) && |xs[k].procs| == |xs[0].procs|
  {
    RunStaysSound(xs, es, k);
  }

  lemma {:induction false} RunKeepsExclusive(xs: seq<System>, es: seq<Event>, k: nat)
    requires IsRun(xs, es) && Initial(xs[0]) && NoFailure(xs, es) && k < |xs|
    ensures Exclusive(xs[k])
  {
    if k > 0 {
      RunKeepsExclusive(xs, es, k - 1);
      StepKeepsExclusive(xs[k - 1], es[k - 1]);
    }
  }

  // ---------- every run ----------

  lemma HandleBeforeStep(s: System, e: Event, w: nat)
    requires Sound(s) && Enabled(s, e) && w < |s.procs| && !(e.w == w && Fails(s, e))
    requires var s' := Step(s, e);
             w < |s'.procs| && HasHandle(s'.procs[w]) && (s'.procs[w].lock.Lost? || s'.holder != Some(w))
    ensures HasHandle(s.procs[w]) && (s.procs[w].lock.Lost? || s.holder != Some(w))
  {
  }

  /** A handle that does not work had its connection fail while the worker had that very handle. */
  lemma {:induction false} UnbackedHandleFailed(xs: seq<System>, es: seq<Event>, k: nat, w: nat) returns (i: nat)
    requires IsRun(xs, es) && Initial(xs[0]) && k < |xs| && w < |xs[k].procs|
    requires HasHandle(xs[k].procs[w]) && (xs[k].procs[w].lock.Lost? || xs[k].holder != Some(w))
    ensures i < k && es[i].w == w && Fails(xs[i], es[i])
    ensures forall j :: i <= j <= k ==> w < |xs[j].procs| && HasHandle(xs[j].procs[w])
  {
    assert k > 0;
    RunKeepsSound(xs, es, k - 1);
    StepMovesOne(xs[k - 1], es[k - 1]);
    if es[k - 1].w == w && Fails(xs[k - 1], es[k - 1]) {
      i := k - 1;
      FailingHandleStays(xs[k - 1], es[k - 1]);
    } else {
      HandleBeforeStep(xs[k - 1], es[k - 1], w);
      i := UnbackedHandleFailed(xs, es, k - 1, w);
    }
  }

  lemma FailingHandleStays(s: System, e: Event)
    requires Enabled(s, e) && Fails(s, e)
    ensures HasHandle(s.procs[e.w])
  {
  }

  /**
   In every run: of two workers inside `pollOnce` together, one is not the server's holder, and
   that one's connection failed while it had the handle it polls on, whether it knows or not.
   */
  lemma AtMostOnePolls(xs: seq<System>, es: seq<Event>, k: nat, v: nat, w: nat) returns (u: nat, i: nat)
    requires IsRun(xs, es) && Initial(xs[0]) && k < |xs|
    requires v < |xs[k].procs| && w < |xs[k].procs| && v != w
    requires xs[k].procs[v].phase.Polling? && xs[k].procs[w].phase.Polling?
    ensures u in {v, w} && xs[k].holder != Some(u)
    ensures i < k && es[i].w == u && Fails(xs[i], es[i])
    ensures forall j :: i <= j <= k ==> u < |xs[j].procs| && HasHandle(xs[j].procs[u])
  {
    RunKeepsSound(xs, es, k);
    u := if xs[k].holder == Some(v) then w else v;
    i := UnbackedHandleFailed(xs, es, k, u);
  }

  /**
   What the gate does guarantee: a worker that polls on a handle it knows has failed learned
   of it in this very poll.
   */
  lemma {:induction false} LostInThisPoll(xs: seq<System>, es: seq<Event>, k: nat, w: nat) returns (i: nat)
    requires IsRun(xs, es) && Initial(xs[0]) && k < |xs| && w < |xs[0].procs|
    requires w < |xs[k].procs| && xs[k].procs[w].phase.Polling? && xs[k].procs[w].lock.Lost?
    ensures i < k && es[i] == Event(w, Notice)
    ensures forall j :: i <= j <= k ==> w < |xs[j].procs| && xs[j].procs[w].phase.Polling?
  {
    assert k > 0;
    RunKeepsSound(xs, es, k - 1);
    StepMovesOne(xs[k - 1], es[k - 1]);
    if es[k - 1] == Event(w, Notice) {
      i := k - 1;
    } else {
      i := LostInThisPoll(xs, es, k - 1, w);
    }
  }

  /** In every run, a worker whose `stop` has resolved polls no more and has no handle, for good. */
  lemma {:induction false} StopIsFinal(xs: seq<System>, es: seq<Event>, j: nat, k: nat, w: nat)
    requires IsRun(xs, es) && Initial(xs[0]) && j <= k < |xs|
    requires w < |xs[j].procs| && xs[j].procs[w].stop.Resolved?
    ensures w < |xs[k].procs| && xs[k].procs[w].stop.Resolved?
    ensures xs[k].procs[w].phase.Idle? && xs[k].procs[w].lock.NoHandle? && !xs[k].procs[w].timer
    ensures xs[k].procs[w].cursor == xs[j].procs[w].cursor
    ensures xs[j].holder != Some(w) ==> xs[k].holder != Some(w)
  {
    RunKeepsSound(xs, es, k);
    if j < k {
      StopIsFinal(xs, es, j, k - 1, w);
      RunKeepsSound(xs, es, k - 1);
      StepMovesOne(xs[k - 1], es[k - 1]);
    }
  }

  /** The worker gave up a session that it never unlocked: its connection failed, or its grant did not arrive. */
  predicate Abandons(e: Event, w: nat) { e == Event(w, Notice) || e == Event(w, AnswerFails) }

  /** A living worker without a handle leaves a session at the server only if its connection failed first. */
  lemma {:induction false} LingeringSessionWasAbandoned(xs: seq<System>, es: seq<Event>, k: nat, w: nat)
    returns (i: nat)
    requires IsRun(xs, es) && Initial(xs[0]) && k < |xs| && w < |xs[k].procs|
    requires xs[k].procs[w].alive && !InUse(xs[k].procs[w]) && xs[k].holder == Some(w)
    ensures i < k && Abandons(es[i], w)
  {
    assert k > 0;
    RunKeepsSound(xs, es, k - 1);
    StepMovesOne(xs[k - 1], es[k - 1]);
    if Abandons(es[k - 1], w) {
      i := k - 1;
    } else {
      i := LingeringSessionWasAbandoned(xs, es, k - 1, w);
    }
  }

  /** So a stop that resolved has freed the lock, unless the worker's connection had failed. */
  lemma StopFreesLock(xs: seq<System>, es: seq<Event>, k: nat, w: nat)
    requires IsRun(xs, es) && Initial(xs[0]) && k < |xs| && w < |xs[k].procs|
    requires xs[k].procs[w].stop.Resolved? && xs[k].procs[w].alive
    requires forall i :: 0 <= i < k ==> !Abandons(es[i], w)
    ensures xs[k].holder != Some(w)
  {
    RunKeepsSound(xs, es, k);
    if xs[k].holder == Some(w) {
      var i := LingeringSessionWasAbandoned(xs, es, k, w);
    }
  }

  /** In every run the checkpoint moves only in a poll, to the poller's cursor. */
  lemma CheckpointMovesInPoll(xs: seq<System>, es: seq<Event>, k: nat)
    requires IsRun(xs, es) && k < |es| && xs[k + 1].disk != xs[k].disk
    ensures es[k].w < |xs[k].procs| && xs[k].procs[es[k].w].phase.Polling?
    ensures es[k].w < |xs[k + 1].procs| && xs[k + 1].disk == xs[k + 1].procs[es[k].w].cursor
  {
    assert Enabled(xs[k], es[k]);
  }

  /** And the poller is the server's holder, or its connection has failed. */
  lemma OnlyTheHolderMovesPositions(xs: seq<System>, es: seq<Event>, k: nat)
    requires IsRun(xs, es) && Initial(xs[0]) && k < |es| && xs[k + 1].disk != xs[k].disk
    ensures xs[k].holder == Some(es[k].w) || FailedBefore(xs, es, k, es[k].w)
  {
    CheckpointMovesInPoll(xs, es, k);
    RunKeepsSound(xs, es, k);
    if xs[k].holder != Some(es[k].w) {
      var i := UnbackedHandleFailed(xs, es, k, es[k].w);
    }
  }

  lemma CursorBeforeStep(s: System, e: Event, w: nat)
    requires Sound(s) && Enabled(s, e) && w < |s.procs| && !(e.w == w && Fails(s, e))
    requires var s' := Step(s, e);
             w < |s'.procs| && s'.procs[w].cursor.Some? && !Gone(s'.procs[w]) && !Backed(s', w)
    ensures !Gone(s.procs[w]) && !Backed(s, w)
    ensures s.procs[w].cursor.None? ==>
      s.procs[w].phase.Polling? && HasHandle(s.procs[w]) && (s.procs[w].lock.Lost? || s.holder != Some(w))
  {
  }

  /** A worker with a cursor but without a working lock has had a connection fail. */
  lemma {:induction false} CursorWithoutLockLostIt(xs: seq<System>, es: seq<Event>, k: nat, w: nat) returns (i: nat)
    requires IsRun(xs, es) && Initial(xs[0]) && k < |xs| && w < |xs[k].procs|
    requires xs[k].procs[w].cursor.Some? && !Gone(xs[k].procs[w]) && !Backed(xs[k], w)
    ensures i < k && es[i].w == w && Fails(xs[i], es[i])
  {
    assert k > 0;
    RunKeepsSound(xs, es, k - 1);
    StepMovesOne(xs[k - 1], es[k - 1]);
    if es[k - 1].w == w && Fails(xs[k - 1], es[k - 1]) {
      i := k - 1;
    } else {
      CursorBeforeStep(xs[k - 1], es[k - 1], w);
      if xs[k - 1].procs[w].cursor.None? {
        i := UnbackedHandleFailed(xs, es, k - 1, w);
      } else {
        i := CursorWithoutLockLostIt(xs, es, k - 1, w);
      }
    }
  }

  /**
   In every run a worker that has a cursor keeps it, through losing the lock and getting it back,
   until it handles an event itself: it never looks at the checkpoint again.
   */
  lemma {:induction false} CursorIsKept(xs: seq<System>, es: seq<Event>, j: nat, k: nat, w: nat)
    requires IsRun(xs, es) && j <= k < |xs| && w < |xs[j].procs| && xs[j].procs[w].cursor.Some?
    requires forall i :: j <= i < k ==> !(es[i].w == w && es[i].action.Process?)
    ensures w < |xs[k].procs| && xs[k].procs[w].cursor == xs[j].procs[w].cursor
  {
    if j < k {
      CursorIsKept(xs, es, j, k - 1, w);
      StepMovesOne(xs[k - 1], es[k - 1]);
    }
  }

  /**
   In every run a worker that takes over reads the saved checkpoint before anything else. While
   it has a cursor, another worker moves the checkpoint only if a connection of one of the two
   has failed before.
   */
  lemma SuccessorStartsFromCheckpoint(xs: seq<System>, es: seq<Event>, j: nat, k: nat, w: nat)
    requires IsRun(xs, es) && Initial(xs[0]) && j < k < |xs|
    requires w < |xs[j].procs| && xs[j].procs[w].cursor.None?
    requires forall i :: j < i <= k ==> w < |xs[i].procs| && xs[i].procs[w].cursor.Some? && !Gone(xs[i].procs[w])
    ensures xs[j].disk.Some? ==> xs[j + 1].procs[w].cursor == xs[j].disk
    ensures forall i :: j < i < k && xs[i + 1].disk != xs[i].disk && es[i].w != w ==>
      FailedBefore(xs, es, i, w) || FailedBefore(xs, es, i, es[i].w)
  {
    var e := es[j];
    forall i | j < i < k && xs[i + 1].disk != xs[i].disk && es[i].w != w
      ensures FailedBefore(xs, es, i, w) || FailedBefore(xs, es, i, es[i].w)
    {
      OnlyTheHolderMovesPositions(xs, es, i);
      if xs[i].holder == Some(es[i].w) {
        var f := CursorWithoutLockLostIt(xs, es, i, w);
      }
    }
  }

  /** If no connection in use fails, nobody else moves the checkpoint until the worker stops or dies. */
  lemma UndisturbedTenure(xs: seq<System>, es: seq<Event>, j: nat, k: nat, w: nat)
    requires IsRun(xs, es) && Initial(xs[0]) && NoFailure(xs, es) && j < k < |xs|
    requires forall i :: j < i <= k ==> w < |xs[i].procs| && xs[i].procs[w].cursor.Some? && !Gone(xs[i].procs[w])
    ensures forall i :: j < i < k && xs[i + 1].disk != xs[i].disk ==> es[i].w == w
  {
    forall i | j < i < k && xs[i + 1].disk != xs[i].disk ensures es[i].w == w {
      CheckpointMovesInPoll(xs, es, i);
      RunKeepsExclusive(xs, es, i);
    }
  }

  // ---------- several workers as one process ----------

  datatype Positions = Positions(cursor: Option<Position>, disk: Option<Position>)

  /** The cursor of the worker that has the lock, and the checkpoint. */
  function Seen(s: System): Positions {
    if s.holder.Some? && s.holder.value < |s.procs| && !Gone(s.procs[s.holder.value])
    then Positions(s.procs[s.holder.value].cursor, s.disk)
    else Positions(None, s.disk)
  }

  /**
   How the positions of one process move: it is restarted, begins at the checkpoint if there is
   one, or moves its cursor and then saves it or not.
   */
  predicate OneProcessMoves(p: Positions, q: Positions) {
    || q == p
    || q == p.(cursor := None)
    || (p.cursor.None? && q.cursor.Some? && q.disk == p.disk && (p.disk.Some? ==> q.cursor == p.disk))
    || (p.cursor.Some? && q.cursor.Some? && (q.disk == p.disk || q.disk == q.cursor))
  }

  lemma SeenMoves(s: System, e: Event)
    requires Exclusive(s) && Enabled(s, e) && !Fails(s, e)
    ensures OneProcessMoves(Seen(s), Seen(Step(s, e)))
  {
  }

  /** If no connection in use fails, several workers are together one process that is restarted. */
  lemma WorkersAreOneProcess(xs: seq<System>, es: seq<Event>, k: nat)
    requires IsRun(xs, es) && Initial(xs[0]) && NoFailure(xs, es) && k < |es|
    ensures OneProcessMoves(Seen(xs[k]), Seen(xs[k + 1]))
    ensures forall w :: 0 <= w < |xs[k].procs| && xs[k].procs[w].cursor.Some? && !Gone(xs[k].procs[w]) ==>
      Seen(xs[k]).cursor == xs[k].procs[w].cursor
  {
    RunKeepsExclusive(xs, es, k);
    SeenMoves(xs[k], es[k]);
  }

  // ---------- what a failed lock connection allows ----------

  lemma Extend(xs: seq<System>, es: seq<Event>, w: nat, action: Action) returns (xs': seq<System>, es': seq<Event>)
    requires IsRun(xs, es) && Enabled(xs[|es|], Event(w, action))
    ensures IsRun(xs', es')
    ensures xs' == xs + [Step(xs[|es|], Event(w, action))] && es' == es + [Event(w, action)]
  {
    xs', es' := xs + [Step(xs[|es|], Event(w, action))], es + [Event(w, action)];
  }

  /** The run goes on without a failing connection, and this worker's fields stay as they are. */
  ghost predicate Continues(xs: seq<System>, es: seq<Event>, xs': seq<System>, es': seq<Event>, w: nat) {
    && |xs| == |es| + 1 && |xs'| == |es'| + 1 && xs <= xs' && es <= es'
    && (forall k {:trigger es'[k]} :: |es| <= k < |es'| ==> !Fails(xs'[k], es'[k]))
    && (forall k :: |xs| <= k < |xs'| ==>
          |xs'[k].procs| == |xs[|es|].procs| && w < |xs'[k].procs| && xs'[k].procs[w] == xs[|es|].procs[w])
  }

  /** An idle worker that finds the lock free ends up polling. */
  lemma TakeLock(xs: seq<System>, es: seq<Event>, w: nat, other: nat) returns (xs': seq<System>, es': seq<Event>)
    requires IsRun(xs, es) && w < |xs[|es|].procs| && xs[|es|].holder.None?
    requires other < |xs[|es|].procs| && other != w
    requires var p := xs[|es|].procs[w]; p.alive && p.timer && p.phase.Idle? && !p.stopped && !p.lock.Held?
    ensures IsRun(xs', es') && Continues(xs, es, xs', es', other)
    ensures forall k :: |es| <= k < |es'| ==> es'[k].w == w && es'[k].action in {Fire, Query, Answer}
    ensures forall k :: |xs| <= k < |xs'| ==>
      w < |xs'[k].procs| && xs'[k].procs[w].cursor == xs[|es|].procs[w].cursor
    ensures var s := xs[|es|];
            var polling := s.procs[w].(timer := false, phase := Polling, lock := Held);
            xs'[|es'|] == s.(holder := Some(w), procs := s.procs[w := polling])
  {
    var s := xs[|es|];
    xs', es' := Extend(xs, es, w, Fire);
    xs', es' := Extend(xs', es', w, Query);
    xs', es' := Extend(xs', es', w, Answer);
    assert xs'[|es'|].procs == s.procs[w := s.procs[w].(timer := false, phase := Polling, lock := Held)];
  }

  const TWO_FRESH := System([FRESH_PROC, FRESH_PROC], None, None)

  /**
   The server ends the session of an idle worker, which does not notice. Another worker takes
   the lock and polls; the first one fires, passes the gate on its stale flag, and polls too.
   */
  lemma UnnoticedEndLetsTwoPoll() returns (xs: seq<System>, es: seq<Event>)
    ensures IsRun(xs, es) && xs[0] == TWO_FRESH && Initial(xs[0])
    ensures forall k :: 0 <= k < |es| ==> !es[k].action.Notice?
    ensures var s := xs[|es|];
            && |s.procs| == 2 && s.procs[0].phase.Polling? && s.procs[1].phase.Polling?
            && s.procs[0].lock.Held? && s.procs[1].lock.Held?
  {
    xs, es := TakeLock([TWO_FRESH], [], 0, 1);
    xs, es := Extend(xs, es, 0, PollEnds);
    xs, es := Extend(xs, es, 0, SessionEnds);
    xs, es := TakeLock(xs, es, 1, 0);
    xs, es := Extend(xs, es, 0, Fire);
  }

  /** One worker polls on while its lock connection fails: a second worker polls beside it. */
  lemma LostConnectionLetsTwoPoll() returns (xs: seq<System>, es: seq<Event>)
    ensures IsRun(xs, es) && Initial(xs[0]) && |xs[0].procs| == 2
    ensures var s := xs[|es|]; |s.procs| == 2 && s.procs[0].phase.Polling? && s.procs[1].phase.Polling?
  {
    xs, es := TakeLock([TWO_FRESH], [], 0, 1);
    xs, es := Extend(xs, es, 0, SessionEnds);
    xs, es := Extend(xs, es, 0, Notice);
    xs, es := TakeLock(xs, es, 1, 0);
  }

  /** A worker reads a checkpoint and then, between two polls, loses the lock. */
  lemma LosesLockWhileWaiting(early: Position) returns (xs: seq<System>, es: seq<Event>)
    ensures IsRun(xs, es) && Initial(xs[0])
    ensures xs[|es|] == System([FRESH_PROC.(lock := Lost, cursor := Some(early)), FRESH_PROC], None, None)
  {
    xs, es := TakeLock([TWO_FRESH], [], 0, 1);
    xs, es := Extend(xs, es, 0, ReadCheckpoint(early));
    xs, es := Extend(xs, es, 0, PollEnds);
    xs, es := Extend(xs, es, 0, SessionEnds);
    xs, es := Extend(xs, es, 0, Notice);
  }

  /** Another one takes the lock and saves a later checkpoint. */
  lemma OvertakenWhileWaiting(early: Position, late: Position) returns (xs: seq<System>, es: seq<Event>)
    ensures IsRun(xs, es) && Initial(xs[0])
    ensures var s := xs[|es|];
            && |s.procs| == 2 && s.holder == Some(1) && s.disk == Some(late) && s.procs[1].alive
            && s.procs[0] == FRESH_PROC.(lock := Lost, cursor := Some(early))
  {
    xs, es := LosesLockWhileWaiting(early);
    xs, es := TakeLock(xs, es, 1, 0);
    xs, es := Extend(xs, es, 1, ReadCheckpoint(late));
    xs, es := Extend(xs, es, 1, Process(late, true));
  }

  /** A worker that loses the lock and gets it back polls from its stale cursor, behind the checkpoint. */
  lemma RegainedLockUsesStaleCursor(early: Position, late: Position) returns (xs: seq<System>, es: seq<Event>)
    ensures IsRun(xs, es) && Initial(xs[0])
    ensures var s := xs[|es|];
            && |s.procs| == 2 && s.procs[0].phase.Polling? && s.holder == Some(0)
            && s.procs[0].cursor == Some(early) && s.disk == Some(late)
  {
    xs, es := OvertakenWhileWaiting(early, late);
    xs, es := Extend(xs, es, 1, Crash);
    xs, es := Extend(xs, es, 1, SessionEnds);
    xs, es := TakeLock(xs, es, 0, 1);
  }
}
