/** Webhook notifications: a bounded memory of delivered ids in front of a persisted per-channel log. */
module Notifications {
  import opened Wrappers

  const MAX_DELIVERED_EVENT_IDS := 10_000

  /** `eventId` is None where the event carries no id; the empty string is treated as none too. */
  datatype Event = Event(eventId: Option<string>, kind: string)

  datatype Endpoint = Endpoint(id: string, eventTypes: set<string>)

  /** The enabled endpoints, and whether the single-endpoint environment variable is set. */
  datatype Config = Config(endpoints: seq<Endpoint>, hasUrl: bool)

  datatype Post = Post(eventId: Option<string>, channel: string, ok: bool)

  /** What the database and the receivers do during one call, by channel. */
  datatype Answers = Answers(
    loads: bool,
    readable: string -> bool,
    accepts: string -> bool,
    writes: string -> bool,
    noopWrites: bool)

  type Log = map<(string, string), bool>

  datatype State = State(memory: seq<string>, log: Log, posts: seq<Post>)

  function IdOf(e: Event): Option<string> {
    if e.eventId == Some("") then None else e.eventId
  }

  predicate Delivered(log: Log, id: string, channel: string) {
    (id, channel) in log && log[(id, channel)]
  }

  /** The subscribed endpoints' channels, or the environment's when no endpoint is enabled at all. */
  function Channels(cfg: Config, kind: string): seq<string> {
    if cfg.endpoints == [] then (if cfg.hasUrl then ["webhook"] else []) else EndpointChannels(cfg.endpoints, kind)
  }

  function EndpointChannels(endpoints: seq<Endpoint>, kind: string): seq<string> {
    if endpoints == [] then []
    else
      var first := endpoints[0];
      (if kind in first.eventTypes then ["webhook:" + first.id] else []) + EndpointChannels(endpoints[1..], kind)
  }

  predicate Distinct(s: seq<string>) {
    forall i, j :: 0 <= i < j < |s| ==> s[i] != s[j]
  }

  /** Endpoint ids are primary keys. */
  predicate WfConfig(cfg: Config) {
    forall i, j :: 0 <= i < j < |cfg.endpoints| ==> cfg.endpoints[i].id != cfg.endpoints[j].id
  }

  function Last<T>(n: nat, s: seq<T>): (r: seq<T>)
    ensures |r| <= n && |r| <= |s|
  {
    if |s| <= n then s else s[|s| - n..]
  }

  /** Adding to an insertion-ordered set keeps a present element in its place. */
  function Added(memory: seq<string>, id: string): seq<string> {
    if id in memory then memory else memory + [id]
  }

  function Remembered(memory: seq<string>, id: string): seq<string> {
    Last(MAX_DELIVERED_EVENT_IDS, Added(memory, id))
  }

  function Deliver(st: State, id: Option<string>, channel: string, w: Answers): (State, bool) {
    if id.Some? && !w.readable(channel) then (st, false)
    else if id.Some? && Delivered(st.log, id.value, channel) then (st, true)
    else
      var ok := w.accepts(channel);
      (st.(posts := st.posts + [Post(id, channel, ok)],
           log := if id.Some? && w.writes(channel) then st.log[(id.value, channel) := ok] else st.log),
       ok)
  }

  function DeliverAll(st: State, id: Option<string>, channels: seq<string>, w: Answers): (State, bool) {
    if channels == [] then (st, true)
    else
      var n := |channels| - 1;
      var (before, all) := DeliverAll(st, id, channels[..n], w);
      var (after, ok) := Deliver(before, id, channels[n], w);
      (after, all && ok)
  }

  /** The row written when nothing is configured; a `create`, so an existing row makes it fail. */
  function WithNoop(log: Log, id: string, w: Answers): Log {
    if w.noopWrites && (id, "webhook") !in log then log[(id, "webhook") := true] else log
  }

  function Notify(st: State, cfg: Config, e: Event, w: Answers): State {
    var id := IdOf(e);
    if (id.Some? && id.value in st.memory) || !w.loads then st
    else
      var (sent, ok) := DeliverAll(st, id, Channels(cfg, e.kind), w);
      if id.Some? && ok
      then sent.(memory := Remembered(sent.memory, id.value),
                 log := if cfg == Config([], false) then WithNoop(sent.log, id.value, w) else sent.log)
      else sent
  }

  /** Log retention deletes rows by age alone, those of successful deliveries too. */
  function Pruned(st: State, expired: set<(string, string)>): State {
    st.(log := st.log - expired)
  }

  /** The service as the process runs it. `posts` lists every request that left it. */
  class NotificationService {
    var deliveredEventIds: seq<string>
    var log: Log
    var posts: seq<Post>

    ghost function View(): State
      reads this
    {
      State(deliveredEventIds, log, posts)
    }

    constructor ()
      ensures View() == State([], map[], [])
    {
      deliveredEventIds, log, posts := [], map[], [];
    }

    /** A restart empties the memory; the log stays. */
    method Restart()
      modifies this
      ensures View() == old(View()).(memory := [])
    {
      deliveredEventIds := [];
    }

    /** The notification half of `pruneOldLogs`; which rows are old enough is the clock's business. */
    method PruneOldLogs(expired: set<(string, string)>)
      modifies this`log
      ensures View() == Pruned(old(View()), expired)
    {
      log := log - expired;
    }

    method RememberDelivered(id: string)
      modifies this`deliveredEventIds
      ensures deliveredEventIds == Remembered(old(deliveredEventIds), id)
    {
      if id !in deliveredEventIds {
        deliveredEventIds := deliveredEventIds + [id];
      }
      ghost var added := deliveredEventIds;
      while |deliveredEventIds| > MAX_DELIVERED_EVENT_IDS
        invariant |deliveredEventIds| <= |added| && deliveredEventIds == added[|added| - |deliveredEventIds|..]
        invariant |added| >= MAX_DELIVERED_EVENT_IDS ==> |deliveredEventIds| >= MAX_DELIVERED_EVENT_IDS
        invariant |added| <= MAX_DELIVERED_EVENT_IDS ==> deliveredEventIds == added
        decreases |deliveredEventIds|
      {
        deliveredEventIds := deliveredEventIds[1..];
      }
    }

    method NotifyWebhookTarget(id: Option<string>, channel: string, w: Answers) returns (success: bool)
      modifies this`log, this`posts
      ensures (View(), success) == Deliver(old(View()), id, channel, w)
    {
      if id.Some? {
        if !w.readable(channel) {
          return false;
        }
        if (id.value, channel) in log && log[(id.value, channel)] {
          return true;
        }
      }
      success := w.accepts(channel);
      posts := posts + [Post(id, channel, success)];
      if id.Some? && w.writes(channel) {
        log := log[(id.value, channel) := success];
      }
    }

    method NotifyWebhook(cfg: Config, id: Option<string>, kind: string, w: Answers)
      returns (success: bool, recordNoop: bool)
      modifies this`log, this`posts
      ensures !w.loads ==> View() == old(View()) && !success && !recordNoop
      ensures w.loads ==> (View(), success) == DeliverAll(old(View()), id, Channels(cfg, kind), w)
      ensures w.loads ==> (recordNoop <==> cfg == Config([], false))
    {
      if !w.loads {
        return false, false;
      }
      var channels := Channels(cfg, kind);
      if |channels| == 0 {
        return true, |cfg.endpoints| == 0;
      }
      success, recordNoop := true, false;
      for i := 0 to |channels|
        invariant (View(), success) == DeliverAll(old(View()), id, channels[..i], w)
      {
        var sent := NotifyWebhookTarget(id, channels[i], w);
        assert channels[..i + 1][..i] == channels[..i];
        success := success && sent;
      }
      assert channels[..|channels|] == channels;
    }

    method NotifyEvent(cfg: Config, e: Event, w: Answers)
      modifies this
      ensures View() == Notify(old(View()), cfg, e, w)
    {
      var id := if e.eventId == Some("") then None else e.eventId;
      if id.Some? && id.value in deliveredEventIds {
        return;
      }
      var success, recordNoop := NotifyWebhook(cfg, id, e.kind, w);
      if id.Some? && success {
        RememberDelivered(id.value);
        if recordNoop && w.noopWrites && (id.value, "webhook") !in log {
          log := log[(id.value, "webhook") := true];
        }
      }
    }
  }

  // ---------- one call ----------

  /** What was posted to a channel for an event id, in order. */
  function PostsTo(posts: seq<Post>, id: string, channel: string): (r: seq<bool>)
    ensures true in r <==> Post(Some(id), channel, true) in posts
  {
    if posts == [] then []
    else
      var n := |posts| - 1;
      PostsTo(posts[..n], id, channel) + if posts[n].eventId == Some(id) && posts[n].channel == channel
        then [posts[n].ok] else []
  }

  lemma PostsToOneMore(posts: seq<Post>, p: Post, id: string, channel: string)
    ensures PostsTo(posts + [p], id, channel)
         == PostsTo(posts, id, channel) + if p.eventId == Some(id) && p.channel == channel then [p.ok] else []
  {
    assert (posts + [p])[..|posts|] == posts;
  }

  /** Endpoint `k` is subscribed to this kind of event, and the channel is its own. */
  predicate Subscribed(cfg: Config, k: nat, kind: string, channel: string) {
    k < |cfg.endpoints| && kind in cfg.endpoints[k].eventTypes && channel == "webhook:" + cfg.endpoints[k].id
  }

  /**
   Who an event of this kind is for: each enabled endpoint subscribed to it; without any
   enabled endpoint, the environment's URL if it is set.
   */
  ghost predicate Addressed(cfg: Config, kind: string, channel: string) {
    || (cfg.endpoints == [] && cfg.hasUrl && channel == "webhook")
    || exists k: nat :: Subscribed(cfg, k, kind, channel)
  }

  lemma {:induction false} EndpointChannelsSubscribed(endpoints: seq<Endpoint>, hasUrl: bool, kind: string, c: string)
    ensures c in EndpointChannels(endpoints, kind) <==>
      exists k: nat :: Subscribed(Config(endpoints, hasUrl), k, kind, c)
  {
    if endpoints != [] {
      var rest, own := endpoints[1..], if kind in endpoints[0].eventTypes then ["webhook:" + endpoints[0].id] else [];
      EndpointChannelsSubscribed(rest, hasUrl, kind, c);
      assert EndpointChannels(endpoints, kind) == own + EndpointChannels(rest, kind);
      assert c in own <==> Subscribed(Config(endpoints, hasUrl), 0, kind, c);
      if k: nat :| Subscribed(Config(endpoints, hasUrl), k, kind, c) {
        assert k > 0 ==> Subscribed(Config(rest, hasUrl), k - 1, kind, c);
      }
      if k: nat :| Subscribed(Config(rest, hasUrl), k, kind, c) {
        assert Subscribed(Config(endpoints, hasUrl), k + 1, kind, c);
      }
    }
  }

  /** The channels of a call are exactly those the event is for. */
  lemma ChannelsAreAddressed(cfg: Config, kind: string, channel: string)
    ensures channel in Channels(cfg, kind) <==> Addressed(cfg, kind, channel)
  {
    EndpointChannelsSubscribed(cfg.endpoints, cfg.hasUrl, kind, channel);
  }

  lemma PrefixedDiffer(a: string, b: string)
    requires a != b
    ensures "webhook:" + a != "webhook:" + b
  {
    assert ("webhook:" + a)[|"webhook:"|..] == a;
    assert ("webhook:" + b)[|"webhook:"|..] == b;
  }

  lemma DistinctCons(head: string, tail: seq<string>)
    requires Distinct(tail) && head !in tail
    ensures Distinct([head] + tail)
  {
  }

  lemma {:induction false} EndpointChannelsDistinct(endpoints: seq<Endpoint>, kind: string)
    requires WfConfig(Config(endpoints, false))
    ensures Distinct(EndpointChannels(endpoints, kind))
  {
    if endpoints != [] {
      var rest := endpoints[1..];
      EndpointChannelsDistinct(rest, kind);
      forall c | c in EndpointChannels(rest, kind)
        ensures c != "webhook:" + endpoints[0].id
      {
        EndpointChannelsSubscribed(rest, false, kind, c);
        var k: nat :| Subscribed(Config(rest, false), k, kind, c);
        assert rest[k] == endpoints[k + 1];
        PrefixedDiffer(rest[k].id, endpoints[0].id);
      }
      DistinctCons("webhook:" + endpoints[0].id, EndpointChannels(rest, kind));
    }
  }

  /** No event is posted twice to one receiver in one call. */
  lemma ChannelsAreDistinct(cfg: Config, kind: string)
    requires WfConfig(cfg)
    ensures Distinct(Channels(cfg, kind))
  {
    EndpointChannelsDistinct(cfg.endpoints, kind);
  }

  /** Whether a call that gets to this channel sends it the event. */
  predicate Sends(st: State, id: string, channel: string, channels: seq<string>, w: Answers) {
    channel in channels && w.readable(channel) && !Delivered(st.log, id, channel)
  }

  /** What one delivery does to another id or channel: nothing. */
  lemma DeliverSparesOthers(st: State, id: Option<string>, c: string, w: Answers, other: string, channel: string)
    requires id != Some(other) || c != channel
    ensures
      var after := Deliver(st, id, c, w).0;
      && after.memory == st.memory
      && PostsTo(after.posts, other, channel) == PostsTo(st.posts, other, channel)
      && Delivered(after.log, other, channel) == Delivered(st.log, other, channel)
  {
    PostsToOneMore(st.posts, Post(id, c, w.accepts(c)), other, channel);
  }

  /** A call posts where the log can be read and shows no success, and the log takes up the outcome. */
  ghost predicate PostsOnce(st: State, id: string, channel: string, sends: bool, w: Answers, after: State) {
    && after.memory == st.memory
    && PostsTo(after.posts, id, channel)
      == PostsTo(st.posts, id, channel) + (if sends then [w.accepts(channel)] else [])
    && Delivered(after.log, id, channel) == if sends && w.writes(channel) then w.accepts(channel)
      else Delivered(st.log, id, channel)
  }

  lemma DeliverPostsOnce(st: State, id: string, channel: string, w: Answers)
    ensures PostsOnce(st, id, channel, Sends(st, id, channel, [channel], w), w, Deliver(st, Some(id), channel, w).0)
  {
    PostsToOneMore(st.posts, Post(Some(id), channel, w.accepts(channel)), id, channel);
  }

  /** One call posts to each channel at most once. */
  lemma {:induction false} DeliverAllByChannel(st: State, id: string, channels: seq<string>, w: Answers,
                                               channel: string)
    requires Distinct(channels)
    ensures PostsOnce(st, id, channel, Sends(st, id, channel, channels, w), w, DeliverAll(st, Some(id), channels, w).0)
  {
    if channels != [] {
      var n := |channels| - 1;
      DeliverAllByChannel(st, id, channels[..n], w, channel);
      var before := DeliverAll(st, Some(id), channels[..n], w).0;
      assert channels == channels[..n] + [channels[n]];
      if channel == channels[n] {
        DeliverPostsOnce(before, id, channel, w);
      } else {
        DeliverSparesOthers(before, Some(id), channels[n], w, id, channel);
      }
    }
  }

  lemma {:induction false} DeliverAllSparesOthers(st: State, id: Option<string>, channels: seq<string>, w: Answers,
                                                  other: string, channel: string)
    requires id != Some(other)
    ensures
      var after := DeliverAll(st, id, channels, w).0;
      && after.memory == st.memory
      && PostsTo(after.posts, other, channel) == PostsTo(st.posts, other, channel)
      && Delivered(after.log, other, channel) == Delivered(st.log, other, channel)
  {
    if channels != [] {
      var n := |channels| - 1;
      DeliverAllSparesOthers(st, id, channels[..n], w, other, channel);
      DeliverSparesOthers(DeliverAll(st, id, channels[..n], w).0, id, channels[n], w, other, channel);
    }
  }

  /** The call succeeds exactly when every channel could be read and now has the event. */
  lemma {:induction false} SucceedsWhenAllDo(st: State, id: string, channels: seq<string>, w: Answers)
    requires Distinct(channels)
    ensures DeliverAll(st, Some(id), channels, w).1
       <==> forall c <- channels :: w.readable(c) && (Delivered(st.log, id, c) || w.accepts(c))
  {
    if channels != [] {
      var n := |channels| - 1;
      SucceedsWhenAllDo(st, id, channels[..n], w);
      DeliverAllByChannel(st, id, channels[..n], w, channels[n]);
      assert channels == channels[..n] + [channels[n]];
    }
  }

  /** The log showed the event as delivered to this channel, or it is posted there now, with success. */
  predicate HasIt(st: State, after: State, id: string, channel: string) {
    Delivered(st.log, id, channel) || Post(Some(id), channel, true) in after.posts
  }

  lemma EntersWhenChannelsHaveIt(st: State, cfg: Config, e: Event, w: Answers, id: string)
    requires WfConfig(cfg) && id !in st.memory && id in Notify(st, cfg, e, w).memory
    ensures IdOf(e) == Some(id)
    ensures forall c <- Channels(cfg, e.kind) :: HasIt(st, Notify(st, cfg, e, w), id, c)
  {
    ChannelsAreDistinct(cfg, e.kind);
    var channels := Channels(cfg, e.kind);
    if IdOf(e) != Some(id) {
      DeliverAllSparesOthers(st, IdOf(e), channels, w, id, "");
    } else {
      SucceedsWhenAllDo(st, id, channels, w);
      DeliverAllByChannel(st, id, channels, w, "");
      forall c | c in channels ensures HasIt(st, Notify(st, cfg, e, w), id, c) {
        DeliverAllByChannel(st, id, channels, w, c);
      }
    }
  }

  /**
   An id enters the memory only in a call after which everyone the event is for has it: each
   endpoint subscribed to it, or the environment's URL.
   */
  lemma EntersOnlyWhenAllHaveIt(st: State, cfg: Config, e: Event, w: Answers, id: string)
    requires WfConfig(cfg) && id !in st.memory && id in Notify(st, cfg, e, w).memory
    ensures IdOf(e) == Some(id)
    ensures forall c :: Addressed(cfg, e.kind, c) ==> HasIt(st, Notify(st, cfg, e, w), id, c)
    ensures forall k: nat :: k < |cfg.endpoints| && e.kind in cfg.endpoints[k].eventTypes ==>
      HasIt(st, Notify(st, cfg, e, w), id, "webhook:" + cfg.endpoints[k].id)
  {
    var after := Notify(st, cfg, e, w);
    EntersWhenChannelsHaveIt(st, cfg, e, w, id);
    forall c | Addressed(cfg, e.kind, c) ensures HasIt(st, after, id, c) {
      ChannelsAreAddressed(cfg, e.kind, c);
    }
    forall k: nat | k < |cfg.endpoints| && e.kind in cfg.endpoints[k].eventTypes
      ensures HasIt(st, after, id, "webhook:" + cfg.endpoints[k].id)
    {
      assert Subscribed(cfg, k, e.kind, "webhook:" + cfg.endpoints[k].id);
      ChannelsAreAddressed(cfg, e.kind, "webhook:" + cfg.endpoints[k].id);
    }
  }

  // ---------- calls without an id, and rows nobody asked for ----------

  function AnonymousPosts(channels: seq<string>, w: Answers): (r: seq<Post>)
    ensures |r| == |channels|
  {
    seq(|channels|, i requires 0 <= i < |channels| => Post(None, channels[i], w.accepts(channels[i])))
  }

  lemma {:induction false} AnonymousDelivers(st: State, channels: seq<string>, w: Answers)
    ensures DeliverAll(st, None, channels, w).0 == st.(posts := st.posts + AnonymousPosts(channels, w))
  {
    if channels == [] {
      assert st.posts + [] == st.posts;
    } else {
      var n := |channels| - 1;
      AnonymousDelivers(st, channels[..n], w);
      assert AnonymousPosts(channels, w) == AnonymousPosts(channels[..n], w) + [Post(None, channels[n],
        w.accepts(channels[n]))];
      var last := [Post(None, channels[n], w.accepts(channels[n]))];
      assert st.posts + AnonymousPosts(channels[..n], w) + last == st.posts + (AnonymousPosts(channels[..n], w) + last);
    }
  }

  /** An event without an id goes out to everyone it is for in every call, and leaves no trace. */
  lemma AnonymousGoesOutEveryTime(st: State, cfg: Config, e: Event, w: Answers)
    requires IdOf(e).None? && w.loads
    ensures var after := Notify(st, cfg, e, w);
            && after.memory == st.memory && after.log == st.log && st.posts <= after.posts
            && (forall p <- after.posts[|st.posts|..] ::
                  p.eventId.None? && Addressed(cfg, e.kind, p.channel) && p.ok == w.accepts(p.channel))
            && forall c :: Addressed(cfg, e.kind, c) ==> Post(None, c, w.accepts(c)) in after.posts[|st.posts|..]
  {
    var channels := Channels(cfg, e.kind);
    AnonymousDelivers(st, channels, w);
    var after := Notify(st, cfg, e, w);
    assert after.posts[|st.posts|..] == AnonymousPosts(channels, w);
    forall p | p in AnonymousPosts(channels, w)
      ensures p.eventId.None? && Addressed(cfg, e.kind, p.channel) && p.ok == w.accepts(p.channel)
    {
      ChannelsAreAddressed(cfg, e.kind, p.channel);
    }
    forall c | Addressed(cfg, e.kind, c) ensures Post(None, c, w.accepts(c)) in AnonymousPosts(channels, w) {
      ChannelsAreAddressed(cfg, e.kind, c);
      var i :| 0 <= i < |channels| && channels[i] == c;
      assert AnonymousPosts(channels, w)[i] == Post(None, c, w.accepts(c));
    }
  }

  lemma {:induction false} DeliverAllLogsOwn(st: State, id: string, channels: seq<string>, w: Answers,
                                             row: (string, string))
    requires row.0 != id || row.1 !in channels
    ensures var after := DeliverAll(st, Some(id), channels, w).0;
            (row in after.log <==> row in st.log) && (row in st.log ==> after.log[row] == st.log[row])
  {
    if channels != [] {
      DeliverAllLogsOwn(st, id, channels[..|channels| - 1], w, row);
      assert channels[|channels| - 1] in channels;
    }
  }

  /**
   A call writes log rows for its own event alone: those of the channels it is for, and, where
   nothing is configured at all, one row that says so.
   */
  lemma LogsOnlyItsOwn(st: State, cfg: Config, e: Event, w: Answers, id: string, channel: string)
    requires var after := Notify(st, cfg, e, w);
             ((id, channel) in after.log) != ((id, channel) in st.log)
             || ((id, channel) in st.log && after.log[(id, channel)] != st.log[(id, channel)])
    ensures IdOf(e) == Some(id)
    ensures Addressed(cfg, e.kind, channel) || (cfg == Config([], false) && channel == "webhook")
  {
    var channels := Channels(cfg, e.kind);
    ChannelsAreAddressed(cfg, e.kind, channel);
    match IdOf(e)
    case None => AnonymousDelivers(st, channels, w);
    case Some(own) =>
      if own != id || channel !in channels {
        DeliverAllLogsOwn(st, own, channels, w, (id, channel));
      }
  }

  /** With nothing configured an event counts as delivered at once, and the log says so if it can. */
  lemma NothingConfigured(st: State, e: Event, w: Answers, id: string)
    requires IdOf(e) == Some(id) && id !in st.memory && w.loads
    ensures var after := Notify(st, Config([], false), e, w);
            && id in after.memory && after.posts == st.posts
            && ((id, "webhook") !in st.log && w.noopWrites ==> Delivered(after.log, id, "webhook"))
            && ((id, "webhook") in st.log ==> after.log == st.log)
  {
    var memory := Remembered(st.memory, id);
    assert memory[|memory| - 1] == id;
  }
}
