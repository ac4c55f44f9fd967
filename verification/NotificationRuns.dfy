/** Notifications over whole runs: calls, evictions, restarts and log retention in any order. */
module NotificationRuns {
  import opened Wrappers
  import opened Notifications

  datatype Move = Call(event: Event, answers: Answers) | ProcessRestart | Prune(expired: set<(string, string)>)

  function Next(st: State, cfg: Config, m: Move): State {
    match m
    case Call(e, w) => Notify(st, cfg, e, w)
    case ProcessRestart => st.(memory := [])
    case Prune(expired) => Pruned(st, expired)
  }

  function Run(cfg: Config, ms: seq<Move>): State {
    if ms == [] then State([], map[], []) else Next(Run(cfg, ms[..|ms| - 1]), cfg, ms[|ms| - 1])
  }

  /** Calls for an id carry one event type. Other calls are free. */
  ghost predicate Steady(ms: seq<Move>, id: string, kind: string) {
    forall k :: 0 <= k < |ms| ==> SteadyMove(ms[k], id, kind)
  }

  predicate SteadyMove(m: Move, id: string, kind: string) {
    m.Call? && IdOf(m.event) == Some(id) ==> m.event.kind == kind
  }

  /** A call for this id that gets as far as asking about this channel. */
  predicate Reaches(m: Move, id: string, channel: string) {
    m.Call? && IdOf(m.event) == Some(id) && m.answers.loads && m.answers.readable(channel)
  }

  /** What the receiver would have answered in each call that could have asked it. */
  function Tries(ms: seq<Move>, id: string, channel: string): seq<bool> {
    if ms == [] then []
    else
      var m := ms[|ms| - 1];
      Tries(ms[..|ms| - 1], id, channel) + if Reaches(m, id, channel) then [m.answers.accepts(channel)] else []
  }

  function UpToFirstSuccess(s: seq<bool>): (r: seq<bool>)
    ensures r <= s && (true in s <==> true in r)
  {
    if s == [] then [] else if s[0] then [true] else [false] + UpToFirstSuccess(s[1..])
  }

  lemma {:induction false} OneMoreTry(s: seq<bool>, b: bool)
    ensures UpToFirstSuccess(s + [b]) == UpToFirstSuccess(s) + if true in s then [] else [b]
  {
    if s != [] {
      OneMoreTry(s[1..], b);
      assert (s + [b])[1..] == s[1..] + [b];
    }
  }

  lemma {:induction false} NoSuccessYet(s: seq<bool>)
    requires true !in s
    ensures UpToFirstSuccess(s) == s
  {
    if s != [] {
      assert s == [s[0]] + s[1..] && s[0] in s;
      NoSuccessYet(s[1..]);
    }
  }

  // ---------- one move, seen at one channel of one event ----------

  predicate Posts(st: State, m: Move, id: string, channel: string) {
    Reaches(m, id, channel) && id !in st.memory && !Delivered(st.log, id, channel)
  }

  /** What a move does to the channel's posts, to its log row, and to the memory. */
  ghost predicate ChannelStep(st: State, m: Move, id: string, channel: string, st': State) {
    && PostsTo(st'.posts, id, channel)
       == PostsTo(st.posts, id, channel) + (if Posts(st, m, id, channel) then [m.answers.accepts(channel)] else [])
    && Delivered(st'.log, id, channel)
       == (if Posts(st, m, id, channel) && m.answers.writes(channel) then m.answers.accepts(channel)
           else Delivered(st.log, id, channel) && !(m.Prune? && (id, channel) in m.expired))
    && (id in st'.memory && id !in st.memory ==>
          Delivered(st.log, id, channel) || (Posts(st, m, id, channel) && m.answers.accepts(channel)))
  }

  lemma OwnCallSteps(st: State, cfg: Config, e: Event, w: Answers, id: string, channel: string)
    requires WfConfig(cfg) && IdOf(e) == Some(id) && channel in Channels(cfg, e.kind)
    ensures ChannelStep(st, Call(e, w), id, channel, Notify(st, cfg, e, w))
  {
    var channels := Channels(cfg, e.kind);
    ChannelsAreDistinct(cfg, e.kind);
    SucceedsWhenAllDo(st, id, channels, w);
    DeliverAllByChannel(st, id, channels, w, channel);
  }

  lemma RememberedOthers(memory: seq<string>, added: string, id: string)
    requires id in Remembered(memory, added) && id != added
    ensures id in memory
  {
  }

  lemma OtherCallSteps(st: State, cfg: Config, e: Event, w: Answers, id: string, channel: string)
    requires IdOf(e) != Some(id) && (channel == "webhook" ==> cfg != Config([], false))
    ensures ChannelStep(st, Call(e, w), id, channel, Notify(st, cfg, e, w))
  {
    DeliverAllSparesOthers(st, IdOf(e), Channels(cfg, e.kind), w, id, channel);
    if IdOf(e).Some? && id in Remembered(st.memory, IdOf(e).value) {
      RememberedOthers(st.memory, IdOf(e).value, id);
    }
  }

  lemma MoveSteps(st: State, cfg: Config, m: Move, id: string, kind: string, channel: string)
    requires WfConfig(cfg) && SteadyMove(m, id, kind) && channel in Channels(cfg, kind)
    ensures ChannelStep(st, m, id, channel, Next(st, cfg, m))
  {
    match m
    case Call(e, w) =>
      if IdOf(e) == Some(id) {
        OwnCallSteps(st, cfg, e, w, id, channel);
      } else {
        OtherCallSteps(st, cfg, e, w, id, channel);
      }
    case ProcessRestart =>
    case Prune(_) =>
  }

  // ---------- every run ----------

  /** The state after the run, at one channel: what was posted, and whether log and memory say so. */
  ghost predicate Tracks(st: State, tries: seq<bool>, id: string, channel: string) {
    var posts := PostsTo(st.posts, id, channel);
    && (Delivered(st.log, id, channel) || id in st.memory ==> true in posts)
    && (true in posts <==> true in tries)
    && (true !in posts ==> posts == tries)
    && UpToFirstSuccess(tries) <= posts
  }

  lemma StepTracks(st: State, tries: seq<bool>, m: Move, id: string, channel: string, st': State)
    requires Tracks(st, tries, id, channel) && ChannelStep(st, m, id, channel, st')
    ensures Tracks(st', tries + (if Reaches(m, id, channel) then [m.answers.accepts(channel)] else []), id, channel)
  {
    if Reaches(m, id, channel) {
      var b := m.answers.accepts(channel);
      OneMoreTry(tries, b);
      if true !in tries {
        NoSuccessYet(tries);
      }
    } else {
      assert tries + [] == tries;
    }
  }

  lemma {:induction false} RunTracks(cfg: Config, ms: seq<Move>, id: string, kind: string, channel: string)
    requires WfConfig(cfg) && Steady(ms, id, kind) && channel in Channels(cfg, kind)
    ensures Tracks(Run(cfg, ms), Tries(ms, id, channel), id, channel)
  {
    if ms != [] {
      var earlier, m := ms[..|ms| - 1], ms[|ms| - 1];
      RunTracks(cfg, earlier, id, kind, channel);
      MoveSteps(Run(cfg, earlier), cfg, m, id, kind, channel);
      StepTracks(Run(cfg, earlier), Tries(earlier, id, channel), m, id, channel, Run(cfg, ms));
    }
  }

  /** A move that leaves a success without its log row: its write fails, or retention deletes it. */
  predicate Loses(st: State, m: Move, id: string, channel: string) {
    || (Posts(st, m, id, channel) && m.answers.accepts(channel) && !m.answers.writes(channel))
    || (m.Prune? && (id, channel) in m.expired && Post(Some(id), channel, true) in st.posts)
  }

  predicate Kept(cfg: Config, ms: seq<Move>, id: string, channel: string) {
    ms == []
    || (Kept(cfg, ms[..|ms| - 1], id, channel) && !Loses(Run(cfg, ms[..|ms| - 1]), ms[|ms| - 1], id, channel))
  }

  /** Nothing went out after the first success, and the log knows of it. */
  ghost predicate Stopped(st: State, tries: seq<bool>, id: string, channel: string) {
    && PostsTo(st.posts, id, channel) == UpToFirstSuccess(tries)
    && (true in PostsTo(st.posts, id, channel) ==> Delivered(st.log, id, channel))
  }

  lemma StepStaysStopped(st: State, tries: seq<bool>, m: Move, id: string, channel: string, st': State)
    requires Tracks(st, tries, id, channel) && Stopped(st, tries, id, channel)
    requires ChannelStep(st, m, id, channel, st') && !Loses(st, m, id, channel)
    ensures Stopped(st', tries + (if Reaches(m, id, channel) then [m.answers.accepts(channel)] else []), id, channel)
  {
    if Reaches(m, id, channel) {
      OneMoreTry(tries, m.answers.accepts(channel));
    } else {
      assert tries + [] == tries;
    }
  }

  lemma {:induction false} KeptRunStops(cfg: Config, ms: seq<Move>, id: string, kind: string, channel: string)
    requires WfConfig(cfg) && Steady(ms, id, kind) && channel in Channels(cfg, kind) && Kept(cfg, ms, id, channel)
    ensures Stopped(Run(cfg, ms), Tries(ms, id, channel), id, channel)
  {
    if ms != [] {
      var earlier, m := ms[..|ms| - 1], ms[|ms| - 1];
      var st, tries := Run(cfg, earlier), Tries(earlier, id, channel);
      KeptRunStops(cfg, earlier, id, kind, channel);
      RunTracks(cfg, earlier, id, kind, channel);
      MoveSteps(st, cfg, m, id, kind, channel);
      StepStaysStopped(st, tries, m, id, channel, Run(cfg, ms));
    }
  }

  /** Once lost, a success shows: the channel was posted to again, or the log no longer knows. */
  lemma {:induction false} LossShows(cfg: Config, ms: seq<Move>, id: string, kind: string, channel: string)
    requires WfConfig(cfg) && Steady(ms, id, kind) && channel in Channels(cfg, kind) && !Kept(cfg, ms, id, channel)
    ensures true in PostsTo(Run(cfg, ms).posts, id, channel)
    ensures
      || |UpToFirstSuccess(Tries(ms, id, channel))| < |PostsTo(Run(cfg, ms).posts, id, channel)|
      || !Delivered(Run(cfg, ms).log, id, channel)
  {
    var earlier, m := ms[..|ms| - 1], ms[|ms| - 1];
    var st, tries := Run(cfg, earlier), Tries(earlier, id, channel);
    RunTracks(cfg, earlier, id, kind, channel);
    MoveSteps(st, cfg, m, id, kind, channel);
    if !Kept(cfg, earlier, id, channel) {
      LossShows(cfg, earlier, id, kind, channel);
      if Reaches(m, id, channel) {
        OneMoreTry(tries, m.answers.accepts(channel));
      } else {
        assert tries + [] == tries;
      }
    }
  }

  /**
   However calls for other events evict the id, however often the process restarts and
   whatever rows expire: a channel is posted to up to its first success, and beyond it only
   after a move that left the success without its log row.
   */
  lemma PostsStopAtFirstSuccess(cfg: Config, ms: seq<Move>, id: string, kind: string, channel: string)
    requires WfConfig(cfg) && Steady(ms, id, kind) && channel in Channels(cfg, kind)
    ensures UpToFirstSuccess(Tries(ms, id, channel)) <= PostsTo(Run(cfg, ms).posts, id, channel)
    ensures Kept(cfg, ms, id, channel) ==>
      PostsTo(Run(cfg, ms).posts, id, channel) == UpToFirstSuccess(Tries(ms, id, channel))
  {
    RunTracks(cfg, ms, id, kind, channel);
    if Kept(cfg, ms, id, channel) {
      KeptRunStops(cfg, ms, id, kind, channel);
    }
  }

  // ---------- who is posted to ----------

  /** Some call of the run was for an event of this id, and for this receiver. */
  ghost predicate AskedFor(cfg: Config, ms: seq<Move>, p: Post) {
    exists k :: && 0 <= k < |ms| && ms[k].Call? && IdOf(ms[k].event) == p.eventId
                && Addressed(cfg, ms[k].event.kind, p.channel)
  }

  lemma {:induction false} DeliverAllPosts(st: State, id: Option<string>, channels: seq<string>, w: Answers, p: Post)
    requires p in DeliverAll(st, id, channels, w).0.posts
    ensures p in st.posts || (p.eventId == id && p.channel in channels)
  {
    if channels != [] {
      var n := |channels| - 1;
      if p in DeliverAll(st, id, channels[..n], w).0.posts {
        DeliverAllPosts(st, id, channels[..n], w, p);
      }
    }
  }

  lemma CallPosts(st: State, cfg: Config, e: Event, w: Answers, p: Post)
    requires p in Notify(st, cfg, e, w).posts
    ensures p in st.posts || (p.eventId == IdOf(e) && Addressed(cfg, e.kind, p.channel))
  {
    if p !in st.posts {
      DeliverAllPosts(st, IdOf(e), Channels(cfg, e.kind), w, p);
      ChannelsAreAddressed(cfg, e.kind, p.channel);
    }
  }

  /** Over any run nothing is posted but to a receiver that some event of that id was for. */
  lemma {:induction false} PostsAreAskedFor(cfg: Config, ms: seq<Move>, p: Post)
    requires p in Run(cfg, ms).posts
    ensures AskedFor(cfg, ms, p)
  {
    assert ms != [];
    var earlier, m := ms[..|ms| - 1], ms[|ms| - 1];
    if p in Run(cfg, earlier).posts {
      PostsAreAskedFor(cfg, earlier, p);
      var k :| 0 <= k < |earlier| && earlier[k].Call? && IdOf(earlier[k].event) == p.eventId
        && Addressed(cfg, earlier[k].event.kind, p.channel);
      assert ms[k] == earlier[k];
    } else {
      CallPosts(Run(cfg, earlier), cfg, m.event, m.answers, p);
    }
  }

  /** So an endpoint is posted only events of the kinds it is subscribed to. */
  lemma EndpointGetsItsKinds(cfg: Config, ms: seq<Move>, p: Post, k: nat)
    requires WfConfig(cfg) && k < |cfg.endpoints| && p in Run(cfg, ms).posts
    requires p.channel == "webhook:" + cfg.endpoints[k].id
    ensures exists j :: && 0 <= j < |ms| && ms[j].Call? && IdOf(ms[j].event) == p.eventId
                        && ms[j].event.kind in cfg.endpoints[k].eventTypes
  {
    PostsAreAskedFor(cfg, ms, p);
    var j :| 0 <= j < |ms| && ms[j].Call? && IdOf(ms[j].event) == p.eventId
      && Addressed(cfg, ms[j].event.kind, p.channel);
    var i: nat :| Subscribed(cfg, i, ms[j].event.kind, p.channel);
    if cfg.endpoints[i].id != cfg.endpoints[k].id {
      PrefixedDiffer(cfg.endpoints[i].id, cfg.endpoints[k].id);
    }
  }

  // ---------- the exact condition ----------

  /** A continuation in which the log takes this channel's writes and keeps its row. */
  ghost predicate Clean(ms: seq<Move>, id: string, kind: string, channel: string) {
    forall k :: 0 <= k < |ms| ==> CleanMove(ms[k], id, kind, channel)
  }

  predicate CleanMove(m: Move, id: string, kind: string, channel: string) {
    && SteadyMove(m, id, kind)
    && (m.Call? && IdOf(m.event) == Some(id) ==> m.answers.writes(channel))
    && (m.Prune? ==> (id, channel) !in m.expired)
  }

  ghost predicate StopsForGood(cfg: Config, ms: seq<Move>, id: string, kind: string, channel: string) {
    forall more: seq<Move> {:trigger Run(cfg, ms + more)} :: Clean(more, id, kind, channel) ==>
      PostsTo(Run(cfg, ms + more).posts, id, channel) == UpToFirstSuccess(Tries(ms + more, id, channel))
  }

  lemma {:induction false} CleanKeeps(cfg: Config, ms: seq<Move>, more: seq<Move>, id: string, kind: string,
                                      channel: string)
    requires Steady(ms, id, kind) && Kept(cfg, ms, id, channel) && Clean(more, id, kind, channel)
    ensures Steady(ms + more, id, kind) && Kept(cfg, ms + more, id, channel)
  {
    if more == [] {
      assert ms + more == ms;
    } else {
      var all, fewer := ms + more, more[..|more| - 1];
      CleanKeeps(cfg, ms, fewer, id, kind, channel);
      assert all[..|all| - 1] == ms + fewer && all[|all| - 1] == more[|more| - 1];
    }
  }

  lemma RunOneMore(cfg: Config, ms: seq<Move>, m: Move, id: string, channel: string)
    ensures Run(cfg, ms + [m]) == Next(Run(cfg, ms), cfg, m)
    ensures Tries(ms + [m], id, channel)
         == Tries(ms, id, channel) + if Reaches(m, id, channel) then [m.answers.accepts(channel)] else []
  {
    assert (ms + [m])[..|ms|] == ms;
  }

  /** Everything outside works. */
  function AllWell(): Answers { Answers(true, _ => true, _ => true, _ => true, true) }

  lemma CallWithoutMemory(st: State, cfg: Config, id: string, kind: string, channel: string)
    requires WfConfig(cfg) && channel in Channels(cfg, kind) && id != "" && id !in st.memory
    ensures PostsTo(Notify(st, cfg, Event(Some(id), kind), AllWell()).posts, id, channel)
         == PostsTo(st.posts, id, channel) + if Delivered(st.log, id, channel) then [] else [true]
  {
    OwnCallSteps(st, cfg, Event(Some(id), kind), AllWell(), id, channel);
  }

  lemma RunTwoMore(cfg: Config, ms: seq<Move>, m: Move, m': Move, id: string, channel: string)
    requires !Reaches(m, id, channel) && Reaches(m', id, channel)
    ensures Run(cfg, ms + [m, m']) == Next(Next(Run(cfg, ms), cfg, m), cfg, m')
    ensures Tries(ms + [m, m'], id, channel) == Tries(ms, id, channel) + [m'.answers.accepts(channel)]
  {
    RunOneMore(cfg, ms, m, id, channel);
    RunOneMore(cfg, ms + [m], m', id, channel);
    assert ms + [m] + [m'] == ms + [m, m'];
    assert Tries(ms, id, channel) + [] == Tries(ms, id, channel);
  }

  /** A process that restarts and calls again posts whatever the log does not show as delivered. */
  lemma CallAfterRestart(cfg: Config, ms: seq<Move>, id: string, kind: string, channel: string)
    returns (more: seq<Move>)
    requires WfConfig(cfg) && channel in Channels(cfg, kind) && id != ""
    ensures Clean(more, id, kind, channel)
    ensures PostsTo(Run(cfg, ms + more).posts, id, channel)
         == PostsTo(Run(cfg, ms).posts, id, channel) + if Delivered(Run(cfg, ms).log, id, channel) then [] else [true]
    ensures Tries(ms + more, id, channel) == Tries(ms, id, channel) + [true]
  {
    var call := Call(Event(Some(id), kind), AllWell());
    more := [ProcessRestart, call];
    RunTwoMore(cfg, ms, ProcessRestart, call, id, channel);
    CallWithoutMemory(Run(cfg, ms).(memory := []), cfg, id, kind, channel);
  }

  /**
   The exact condition. Every clean continuation of a run stops at the channel's first
   success iff no success so far lost its log row, to a failed write or to retention.
   */
  lemma StopsForGoodIffLogKeepsSuccess(cfg: Config, ms: seq<Move>, id: string, kind: string, channel: string)
    requires WfConfig(cfg) && Steady(ms, id, kind) && channel in Channels(cfg, kind) && id != ""
    ensures StopsForGood(cfg, ms, id, kind, channel) <==> Kept(cfg, ms, id, channel)
  {
    if Kept(cfg, ms, id, channel) {
      forall more: seq<Move> | Clean(more, id, kind, channel)
        ensures PostsTo(Run(cfg, ms + more).posts, id, channel) == UpToFirstSuccess(Tries(ms + more, id, channel))
      {
        CleanKeeps(cfg, ms, more, id, kind, channel);
        KeptRunStops(cfg, ms + more, id, kind, channel);
      }
    } else {
      LossShows(cfg, ms, id, kind, channel);
      RunTracks(cfg, ms, id, kind, channel);
      var more := CallAfterRestart(cfg, ms, id, kind, channel);
      OneMoreTry(Tries(ms, id, channel), true);
      assert UpToFirstSuccess(Tries(ms, id, channel)) <= PostsTo(Run(cfg, ms).posts, id, channel);
      assert |UpToFirstSuccess(Tries(ms + more, id, channel))| < |PostsTo(Run(cfg, ms + more).posts, id, channel)|;
    }
  }

  lemma RunOfFour(cfg: Config, a: Move, b: Move, c: Move, d: Move)
    ensures Run(cfg, [a, b, c, d]) == Next(Next(Next(Next(Run(cfg, []), cfg, a), cfg, b), cfg, c), cfg, d)
  {
    RunOneMore(cfg, [], a, "", "");
    RunOneMore(cfg, [a], b, "", "");
    RunOneMore(cfg, [a, b], c, "", "");
    RunOneMore(cfg, [a, b, c], d, "", "");
    assert [] + [a] == [a] && [a] + [b] == [a, b] && [a, b] + [c] == [a, b, c] && [a, b, c] + [d] == [a, b, c, d];
  }

  lemma LostRowLetsPost(st: State, cfg: Config, e: Event, w: Answers, again: Answers, id: string, channel: string,
                        expired: bool)
    requires WfConfig(cfg) && IdOf(e) == Some(id) && channel in Channels(cfg, e.kind)
    requires id !in st.memory && !Delivered(st.log, id, channel)
    requires w.loads && w.readable(channel) && w.writes(channel) == expired
    requires again.loads && again.readable(channel)
    ensures
      var lost := Pruned(Notify(st, cfg, e, w), if expired then {(id, channel)} else {});
      PostsTo(Notify(lost.(memory := []), cfg, e, again).posts, id, channel)
        == PostsTo(st.posts, id, channel) + [w.accepts(channel), again.accepts(channel)]
  {
    var lost := Pruned(Notify(st, cfg, e, w), if expired then {(id, channel)} else {});
    OwnCallSteps(st, cfg, e, w, id, channel);
    OwnCallSteps(lost.(memory := []), cfg, e, again, id, channel);
  }

  /** One input of each kind: a failed write or an expired row, a restart, and the event goes out again. */
  lemma LostLogRowSendsAgain(cfg: Config, e: Event, w: Answers, again: Answers, id: string, channel: string,
                             expired: bool)
    requires WfConfig(cfg) && IdOf(e) == Some(id) && channel in Channels(cfg, e.kind)
    requires w.loads && w.readable(channel) && w.accepts(channel) && w.writes(channel) == expired
    requires again.loads && again.readable(channel) && again.accepts(channel)
    ensures
      var ms := [Call(e, w), Prune(if expired then {(id, channel)} else {}), ProcessRestart, Call(e, again)];
      PostsTo(Run(cfg, ms).posts, id, channel) == [true, true]
  {
    RunOfFour(cfg, Call(e, w), Prune(if expired then {(id, channel)} else {}), ProcessRestart, Call(e, again));
    LostRowLetsPost(Run(cfg, []), cfg, e, w, again, id, channel, expired);
  }

  // ---------- the memory ----------

  /** Whether a call remembers its event's id. */
  predicate Remembers(st: State, cfg: Config, e: Event, w: Answers) {
    IdOf(e).Some? && IdOf(e).value !in st.memory && w.loads && DeliverAll(st, IdOf(e), Channels(cfg, e.kind), w).1
  }

  /** The ids remembered since the last restart, in order; an evicted id may be remembered again. */
  function History(cfg: Config, ms: seq<Move>): seq<string> {
    if ms == [] then []
    else
      var earlier, m := ms[..|ms| - 1], ms[|ms| - 1];
      match m
      case ProcessRestart => []
      case Prune(_) => History(cfg, earlier)
      case Call(e, w) =>
        History(cfg, earlier) + if Remembers(Run(cfg, earlier), cfg, e, w) then [IdOf(e).value] else []
  }

  lemma {:induction false} DeliverAllSparesMemory(st: State, id: Option<string>, channels: seq<string>, w: Answers)
    ensures DeliverAll(st, id, channels, w).0.memory == st.memory
  {
    if channels != [] {
      DeliverAllSparesMemory(st, id, channels[..|channels| - 1], w);
    }
  }

  lemma RememberOne(n: nat, memory: seq<string>, history: seq<string>, id: string)
    requires n > 0 && memory == Last(n, history) && Distinct(memory) && id !in memory
    ensures Last(n, memory + [id]) == Last(n, history + [id]) && Distinct(Last(n, memory + [id]))
  {
  }

  lemma CallRemembers(st: State, cfg: Config, e: Event, w: Answers)
    ensures Notify(st, cfg, e, w).memory
         == if Remembers(st, cfg, e, w) then Last(MAX_DELIVERED_EVENT_IDS, st.memory + [IdOf(e).value]) else st.memory
  {
    DeliverAllSparesMemory(st, IdOf(e), Channels(cfg, e.kind), w);
  }

  /** The memory is the last 10,000 remembered ids in the order they came, each once. */
  lemma {:induction false} MemoryIsLastRemembered(cfg: Config, ms: seq<Move>)
    ensures Run(cfg, ms).memory == Last(MAX_DELIVERED_EVENT_IDS, History(cfg, ms))
    ensures Distinct(Run(cfg, ms).memory)
  {
    if ms != [] && ms[|ms| - 1].Prune? {
      MemoryIsLastRemembered(cfg, ms[..|ms| - 1]);
    } else if ms != [] && ms[|ms| - 1].Call? {
      var earlier, e, w := ms[..|ms| - 1], ms[|ms| - 1].event, ms[|ms| - 1].answers;
      MemoryIsLastRemembered(cfg, earlier);
      CallRemembers(Run(cfg, earlier), cfg, e, w);
      if Remembers(Run(cfg, earlier), cfg, e, w) {
        RememberOne(MAX_DELIVERED_EVENT_IDS, Run(cfg, earlier).memory, History(cfg, earlier), IdOf(e).value);
      } else {
        assert History(cfg, earlier) + [] == History(cfg, earlier);
      }
    }
  }
}
