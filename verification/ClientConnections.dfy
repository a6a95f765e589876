/**
 * Job and chat subscriptions of the sidecar's WebSocket connections.
 *
 * Every connection keeps the topics it holds, and every hold is one reference on a channel of the
 * shared subscriber.  Ownership checks and retains are awaited, so messages, rejections, closes
 * and Redis replies of all connections interleave; each event below runs to the next await.
 */
module ClientConnections {
  import R = RedisSubscriber

  type Channel = R.Channel

  // ---------- Topics and channel names ----------

  datatype Topic = Job(id: string) | Chat(id: string)

  function JobStatus(jobId: string): Channel { "job:" + jobId + ":status" }

  function ChatTokens(user: string, conversationId: string): Channel {
    "user:" + user + ":chat:" + conversationId + ":tokens"
  }

  function UserUpdates(user: string): Channel { "user:" + user + ":updates" }

  function ChannelOf(user: string, topic: Topic): Channel {
    match topic
    case Job(id) => JobStatus(id)
    case Chat(id) => ChatTokens(user, id)
  }

  predicate IsAlphanumeric(c: char) {
    'A' <= c <= 'Z' || 'a' <= c <= 'z' || '0' <= c <= '9'
  }

  predicate ValidTopic(topic: Topic) {
    && 1 <= |topic.id| <= 128
    && (topic.Job? ==> forall i :: 0 <= i < |topic.id| ==> IsAlphanumeric(topic.id[i]) || topic.id[i] in "._-")
    && (topic.Chat? ==> IsAlphanumeric(topic.id[0]))
    && (topic.Chat? ==> forall i :: 0 <= i < |topic.id| ==> IsAlphanumeric(topic.id[i]) || topic.id[i] in "._:-")
  }

  lemma MiddleIsInjective(a: string, x: string, y: string, b: string)
    requires a + x + b == a + y + b
    ensures x == y
  {
    assert |x| == |y|;
    forall i | 0 <= i < |x| ensures x[i] == y[i] {
      assert (a + x + b)[|a| + i] == x[i];
      assert (a + y + b)[|a| + i] == y[i];
    }
  }

  // Channel names of one connection never clash, whatever characters the identifiers contain.
  lemma ChannelsAreDistinct(user: string, t: Topic, u: Topic)
    ensures ChannelOf(user, t) == ChannelOf(user, u) ==> t == u
    ensures ChannelOf(user, t) != UserUpdates(user)
  {
    assert JobStatus(t.id)[0] == 'j';
    assert JobStatus(u.id)[0] == 'j';
    assert ChatTokens(user, t.id)[0] == 'u';
    assert ChatTokens(user, u.id)[0] == 'u';
    assert UserUpdates(user)[0] == 'u';
    var chat, updates := ChatTokens(user, t.id), UserUpdates(user);
    assert chat[|chat| - 2] == 'n';
    assert updates[|updates| - 2] == 'e';
    if ChannelOf(user, t) == ChannelOf(user, u) {
      if t.Job? {
        MiddleIsInjective("job:", t.id, u.id, ":status");
      } else {
        MiddleIsInjective("user:" + user + ":chat:", t.id, u.id, ":tokens");
      }
    }
  }

  // ---------- One connection ----------

  // JavaScript sets iterate in insertion order, so they are duplicate-free sequences here.
  datatype Conn = Conn(
    user: string,
    jobs: seq<string>,
    chats: seq<string>,
    pending: map<Channel, nat>,   // the latest unanswered subscribe request per channel
    holdsUser: bool,
    initialized: bool,
    closed: bool,
    checks: nat
  )

  datatype Limits = Limits(maxJobs: nat, maxChats: nat)

  function NewConn(user: string): Conn { Conn(user, [], [], map[], true, false, false, 0) }

  predicate Has(conn: Conn, topic: Topic) {
    match topic
    case Job(id) => id in conn.jobs
    case Chat(id) => id in conn.chats
  }

  predicate Full(conn: Conn, topic: Topic, limits: Limits) {
    match topic
    case Job(_) => |conn.jobs| >= limits.maxJobs
    case Chat(_) => |conn.chats| >= limits.maxChats
  }

  function Without(s: seq<string>, x: string): (r: seq<string>)
    ensures forall y :: y in r <==> y in s && y != x
    ensures NoDuplicates(s) ==> NoDuplicates(r)
    ensures if x in s then |r| < |s| else r == s
  {
    if s == [] then []
    else if s[0] == x then Without(s[1..], x)
    else
      var r := [s[0]] + Without(s[1..], x);
      assert NoDuplicates(s) ==> NoDuplicates(s[1..]) && s[0] !in s[1..];
      r
  }

  ghost predicate NoDuplicates(s: seq<string>) {
    forall i, j :: 0 <= i < j < |s| ==> s[i] != s[j]
  }

  function Add(conn: Conn, topic: Topic): Conn {
    match topic
    case Job(id) => conn.(jobs := conn.jobs + [id])
    case Chat(id) => conn.(chats := conn.chats + [id])
  }

  function Drop(conn: Conn, topic: Topic): Conn {
    match topic
    case Job(id) => conn.(jobs := Without(conn.jobs, id))
    case Chat(id) => conn.(chats := Without(conn.chats, id))
  }

  // The channels a connection holds, in the order `removeConnection` releases them.
  function Held(conn: Conn): seq<Channel> {
    seq(|conn.jobs|, i requires 0 <= i < |conn.jobs| => JobStatus(conn.jobs[i]))
    + seq(|conn.chats|, i requires 0 <= i < |conn.chats| => ChatTokens(conn.user, conn.chats[i]))
    + if conn.holdsUser then [UserUpdates(conn.user)] else []
  }

  function ReleaseAll(r: R.State, channels: seq<Channel>): R.State
    decreases |channels|
  {
    if channels == [] then r else ReleaseAll(R.ReleaseStep(r, channels[0]), channels[1..])
  }

  function Unsubscribed(conn: Conn, r: R.State, topic: Topic): (Conn, R.State) {
    var channel := ChannelOf(conn.user, topic);
    var settled := conn.(pending := conn.pending - {channel});
    if Has(conn, topic) then (Drop(settled, topic), R.ReleaseStep(r, channel)) else (settled, r)
  }

  function Removed(conn: Conn, r: R.State): (Conn, R.State) {
    if conn.closed then (conn, r)
    else (conn.(closed := true, pending := map[], jobs := [], chats := [], holdsUser := false),
          ReleaseAll(r, Held(conn)))
  }

  // `beginSubscription` after the guards that run before the ownership check.
  function Requested(conn: Conn, topic: Topic, token: nat, limits: Limits): (Conn, bool) {
    if !conn.initialized || conn.closed || conn.checks >= limits.maxJobs + limits.maxChats
       || !ValidTopic(topic) || Has(conn, topic) || Full(conn, topic, limits)
    then (conn, false)
    else (conn.(pending := conn.pending[ChannelOf(conn.user, topic) := token], checks := conn.checks + 1), true)
  }

  // `finishSubscription` and everything up to the awaited retain; the flag says it was reached.
  function Checked(conn: Conn, r: R.State, topic: Topic, token: nat, allowed: bool, limits: Limits)
    : (Conn, R.State, bool)
  {
    var channel := ChannelOf(conn.user, topic);
    if channel !in conn.pending || conn.pending[channel] != token then (conn, r, false)
    else
      var settled := conn.(pending := conn.pending - {channel});
      if !allowed || conn.closed || Has(conn, topic) || Full(conn, topic, limits) then (settled, r, false)
      else (Add(settled, topic), R.RetainStep(r, channel), true)
  }

  // The catch block of an awaited retain.
  function RolledBack(conn: Conn, r: R.State, topic: Topic): (Conn, R.State) {
    if Has(conn, topic) then (Drop(conn, topic), R.ReleaseStep(r, ChannelOf(conn.user, topic))) else (conn, r)
  }

  // ---------- The whole sidecar ----------

  // A continuation waiting for a promise.
  datatype Task =
    | Joining(conn: nat)                               // the user channel's retain
    | Loading(conn: nat)                               // the streaming states
    | Checking(conn: nat, topic: Topic, token: nat)    // the ownership check
    | Retaining(conn: nat, topic: Topic)
    | RollingBack(conn: nat)

  datatype System = System(
    redis: R.State, conns: seq<Conn>, tasks: map<nat, Task>, nextTask: nat, nextToken: nat, limits: Limits
  )

  datatype Event =
    | Open(user: string)
    | Joined(task: nat, ok: bool, open: bool)          // `open`: the socket still is
    | Loaded(task: nat, ok: bool, open: bool)
    | SubscribeMessage(conn: nat, topic: Topic)
    | UnsubscribeMessage(conn: nat, topic: Topic)
    | CheckSettled(task: nat, allowed: bool)
    | RetainSettled(task: nat, ok: bool)
    | RollbackSettled(task: nat)
    | Closed(conn: nat)                                // 'close' or 'error'
    | Subscriber(ev: R.Event)                          // the promise chain or Redis itself moves
    | Shutdown

  function Start(limits: Limits): System { System(R.Initial, [], map[], 0, 0, limits) }

  function WithConn(s: System, c: nat, conn: Conn, r: R.State): System
    requires c < |s.conns|
  {
    s.(conns := s.conns[c := conn], redis := r)
  }

  function EndTask(s: System, t: nat): System { s.(tasks := s.tasks - {t}) }

  function FreeSlot(conn: Conn): Conn { conn.(checks := if conn.checks > 0 then conn.checks - 1 else 0) }

  function RemoveStep(s: System, c: nat): System
    requires c < |s.conns|
  {
    var (conn, r) := Removed(s.conns[c], s.redis);
    WithConn(s, c, conn, r)
  }

  function OpenStep(s: System, user: string): System {
    s.(conns := s.conns + [NewConn(user)], redis := R.RetainStep(s.redis, UserUpdates(user)),
       tasks := s.tasks[s.nextTask := Joining(|s.conns|)], nextTask := s.nextTask + 1)
  }

  function SetupStep(s: System, t: nat, ok: bool, open: bool): System
    requires t in s.tasks && (s.tasks[t].Joining? || s.tasks[t].Loading?) && s.tasks[t].conn < |s.conns|
  {
    var c := s.tasks[t].conn;
    if !ok || s.conns[c].closed || !open then RemoveStep(EndTask(s, t), c)
    else if s.tasks[t].Joining? then s.(tasks := s.tasks[t := Loading(c)])
    else WithConn(EndTask(s, t), c, s.conns[c].(initialized := true), s.redis)
  }

  function SubscribeStep(s: System, c: nat, topic: Topic): System
    requires c < |s.conns|
  {
    var (conn, begun) := Requested(s.conns[c], topic, s.nextToken, s.limits);
    if !begun then s
    else s.(conns := s.conns[c := conn], tasks := s.tasks[s.nextTask := Checking(c, topic, s.nextToken)],
            nextTask := s.nextTask + 1, nextToken := s.nextToken + 1)
  }

  function CheckStep(s: System, t: nat, allowed: bool): System
    requires t in s.tasks && s.tasks[t].Checking? && s.tasks[t].conn < |s.conns|
  {
    var Checking(c, topic, token) := s.tasks[t];
    var (conn, r, retained) := Checked(s.conns[c], s.redis, topic, token, allowed, s.limits);
    if retained then WithConn(s, c, conn, r).(tasks := s.tasks[t := Retaining(c, topic)])
    else WithConn(EndTask(s, t), c, FreeSlot(conn), r)
  }

  function RetainSettledStep(s: System, t: nat, ok: bool): System
    requires t in s.tasks && s.tasks[t].Retaining? && s.tasks[t].conn < |s.conns|
  {
    var Retaining(c, topic) := s.tasks[t];
    if ok || !Has(s.conns[c], topic) then WithConn(EndTask(s, t), c, FreeSlot(s.conns[c]), s.redis)
    else
      var (conn, r) := RolledBack(s.conns[c], s.redis, topic);
      WithConn(s, c, conn, r).(tasks := s.tasks[t := RollingBack(c)])
  }

  function UnsubscribeStep(s: System, c: nat, topic: Topic): System
    requires c < |s.conns|
  {
    if s.conns[c].closed || !s.conns[c].initialized then s
    else
      var (conn, r) := Unsubscribed(s.conns[c], s.redis, topic);
      WithConn(s, c, conn, r)
  }

  function Step(s: System, ev: Event): System {
    match ev
    case Open(user) => OpenStep(s, user)
    case Joined(t, ok, open) =>
      if t in s.tasks && s.tasks[t].Joining? && s.tasks[t].conn < |s.conns| then SetupStep(s, t, ok, open) else s
    case Loaded(t, ok, open) =>
      if t in s.tasks && s.tasks[t].Loading? && s.tasks[t].conn < |s.conns| then SetupStep(s, t, ok, open) else s
    case SubscribeMessage(c, topic) => if c < |s.conns| then SubscribeStep(s, c, topic) else s
    case UnsubscribeMessage(c, topic) => if c < |s.conns| then UnsubscribeStep(s, c, topic) else s
    case CheckSettled(t, allowed) =>
      if t in s.tasks && s.tasks[t].Checking? && s.tasks[t].conn < |s.conns| then CheckStep(s, t, allowed) else s
    case RetainSettled(t, ok) =>
      if t in s.tasks && s.tasks[t].Retaining? && s.tasks[t].conn < |s.conns| then RetainSettledStep(s, t, ok) else s
    case RollbackSettled(t) =>
      if t in s.tasks && s.tasks[t].RollingBack? && s.tasks[t].conn < |s.conns|
      then WithConn(EndTask(s, t), s.tasks[t].conn, FreeSlot(s.conns[s.tasks[t].conn]), s.redis) else s
    case Closed(c) => if c < |s.conns| then RemoveStep(s, c) else s
    case Subscriber(rev) =>
      if rev.Retain? || rev.Release? || rev.Shutdown? then s else s.(redis := R.Step(s.redis, rev))
    case Shutdown => s.(redis := R.ShutdownStep(s.redis))
  }

  function Exec(s: System, evs: seq<Event>): System
    decreases |evs|
  {
    if evs == [] then s else Exec(Step(s, evs[0]), evs[1..])
  }

  // ---------- Conservation of references ----------

  ghost predicate WellFormed(conn: Conn) {
    && NoDuplicates(conn.jobs) && NoDuplicates(conn.chats)
    && (conn.closed ==> conn.jobs == [] && conn.chats == [] && !conn.holdsUser && conn.pending == map[])
  }

  function Holders(conns: seq<Conn>, channel: Channel): set<nat> {
    set c: nat | c < |conns| && channel in Held(conns[c])
  }

  ghost predicate Conserved(s: System) {
    && R.Inv(s.redis)
    && (forall c :: 0 <= c < |s.conns| ==> WellFormed(s.conns[c]))
    && (!s.redis.closed ==> forall ch :: R.RefCount(s.redis, ch) == |Holders(s.conns, ch)|)
  }

  lemma HeldMembers(conn: Conn, ch: Channel)
    ensures ch in Held(conn) <==>
            || (exists t :: Has(conn, t) && ch == ChannelOf(conn.user, t))
            || (conn.holdsUser && ch == UserUpdates(conn.user))
  {
    var jobs := seq(|conn.jobs|, i requires 0 <= i < |conn.jobs| => JobStatus(conn.jobs[i]));
    var chats := seq(|conn.chats|, i requires 0 <= i < |conn.chats| => ChatTokens(conn.user, conn.chats[i]));
    if ch in jobs {
      var i :| 0 <= i < |jobs| && jobs[i] == ch;
      assert Has(conn, Job(conn.jobs[i])) && ch == ChannelOf(conn.user, Job(conn.jobs[i]));
    }
    if ch in chats {
      var i :| 0 <= i < |chats| && chats[i] == ch;
      assert Has(conn, Chat(conn.chats[i])) && ch == ChannelOf(conn.user, Chat(conn.chats[i]));
    }
    if t :| Has(conn, t) && ch == ChannelOf(conn.user, t) {
      match t
      case Job(id) =>
        var i :| 0 <= i < |conn.jobs| && conn.jobs[i] == id;
        assert jobs[i] == ch;
      case Chat(id) =>
        var i :| 0 <= i < |conn.chats| && conn.chats[i] == id;
        assert chats[i] == ch;
    }
  }

  lemma HeldIsDuplicateFree(conn: Conn)
    requires WellFormed(conn)
    ensures NoDuplicates(Held(conn))
  {
    var h, nj, nc := Held(conn), |conn.jobs|, |conn.chats|;
    forall i, j | 0 <= i < j < |h| ensures h[i] != h[j] {
      var t := if i < nj then Job(conn.jobs[i]) else Chat(conn.chats[i - nj]);
      assert h[i] == ChannelOf(conn.user, t);
      if j < nj + nc {
        var u := if j < nj then Job(conn.jobs[j]) else Chat(conn.chats[j - nj]);
        assert h[j] == ChannelOf(conn.user, u);
        ChannelsAreDistinct(conn.user, t, u);
      } else {
        ChannelsAreDistinct(conn.user, t, t);
      }
    }
  }

  lemma SizesDifferAtOne(a: set<nat>, b: set<nat>, x: nat)
    requires a - {x} == b - {x}
    ensures |a| - (if x in a then 1 else 0) == |b| - if x in b then 1 else 0
  {
    assert a == if x in a then (a - {x}) + {x} else a - {x};
    assert b == if x in b then (b - {x}) + {x} else b - {x};
  }

  lemma HoldersAfter(conns: seq<Conn>, c: nat, conn: Conn, ch: Channel)
    requires c < |conns|
    ensures |Holders(conns[c := conn], ch)| ==
            |Holders(conns, ch)| - (if ch in Held(conns[c]) then 1 else 0) + (if ch in Held(conn) then 1 else 0)
  {
    var before, after := Holders(conns, ch), Holders(conns[c := conn], ch);
    forall x ensures x in before - {c} <==> x in after - {c} {
    }
    SizesDifferAtOne(before, after, c);
  }

  lemma {:induction false} ReleaseAllCounts(r: R.State, channels: seq<Channel>, ch: Channel)
    requires R.Inv(r) && !r.closed && NoDuplicates(channels)
    requires forall x :: x in channels ==> R.RefCount(r, x) > 0
    ensures R.Inv(ReleaseAll(r, channels)) && !ReleaseAll(r, channels).closed
    ensures R.RefCount(ReleaseAll(r, channels), ch) == R.RefCount(r, ch) - if ch in channels then 1 else 0
    decreases |channels|
  {
    if channels != [] {
      var next := R.Step(r, R.Release(channels[0]));
      R.StepKeeps(r, R.Release(channels[0]));
      forall x ensures R.RefCount(next, x) == R.RefCount(r, x) - if x == channels[0] then 1 else 0 {
        R.CountsChangeOnlyByHolders(r, R.Release(channels[0]), x);
      }
      R.CountsChangeOnlyByHolders(r, R.Release(channels[0]), ch);
      assert channels == [channels[0]] + channels[1..];
      ReleaseAllCounts(next, channels[1..], ch);
    }
  }

  lemma {:induction false} ReleaseAllKeeps(r: R.State, channels: seq<Channel>)
    requires R.Inv(r)
    ensures R.Inv(ReleaseAll(r, channels)) && ReleaseAll(r, channels).closed == r.closed
    decreases |channels|
  {
    if channels != [] {
      R.StepKeeps(r, R.Release(channels[0]));
      ReleaseAllKeeps(R.Step(r, R.Release(channels[0])), channels[1..]);
    }
  }

  // What every operation on one connection owes to the reference counts.
  ghost predicate Sound(conn: Conn, r: R.State) {
    && R.Inv(r) && WellFormed(conn)
    && (!r.closed ==> forall ch :: ch in Held(conn) ==> R.RefCount(r, ch) > 0)
  }

  ghost predicate Balanced(conn: Conn, r: R.State, conn': Conn, r': R.State) {
    && R.Inv(r') && WellFormed(conn') && r'.closed == r.closed
    && (!r.closed ==> forall ch ::
          R.RefCount(r', ch) == R.RefCount(r, ch) - (if ch in Held(conn) then 1 else 0) + (if ch in Held(conn') then 1 else 0))
  }

  lemma AddHolds(conn: Conn, topic: Topic, ch: Channel)
    requires WellFormed(conn) && !conn.closed && !Has(conn, topic)
    ensures WellFormed(Add(conn, topic))
    ensures ch in Held(Add(conn, topic)) <==> ch in Held(conn) || ch == ChannelOf(conn.user, topic)
    ensures ChannelOf(conn.user, topic) !in Held(conn)
  {
    var after := Add(conn, topic);
    HeldMembers(conn, ch);
    HeldMembers(after, ch);
    HeldMembers(conn, ChannelOf(conn.user, topic));
    assert forall t :: Has(after, t) <==> Has(conn, t) || t == topic;
    forall t ensures ChannelOf(conn.user, t) == ChannelOf(conn.user, topic) ==> t == topic {
      ChannelsAreDistinct(conn.user, t, topic);
    }
    ChannelsAreDistinct(conn.user, topic, topic);
  }

  lemma DropReleases(conn: Conn, topic: Topic, ch: Channel)
    requires WellFormed(conn) && Has(conn, topic)
    ensures WellFormed(Drop(conn, topic)) && !Has(Drop(conn, topic), topic)
    ensures ch in Held(Drop(conn, topic)) <==> ch in Held(conn) && ch != ChannelOf(conn.user, topic)
    ensures ChannelOf(conn.user, topic) in Held(conn)
  {
    var after := Drop(conn, topic);
    HeldMembers(conn, ch);
    HeldMembers(after, ch);
    HeldMembers(conn, ChannelOf(conn.user, topic));
    assert forall t :: Has(after, t) <==> Has(conn, t) && t != topic;
    forall t ensures ChannelOf(conn.user, t) == ChannelOf(conn.user, topic) ==> t == topic {
      ChannelsAreDistinct(conn.user, t, topic);
    }
    ChannelsAreDistinct(conn.user, topic, topic);
  }

  lemma DropBalances(conn: Conn, r: R.State, topic: Topic)
    requires Sound(conn, r) && Has(conn, topic)
    ensures Balanced(conn, r, Drop(conn, topic), R.ReleaseStep(r, ChannelOf(conn.user, topic)))
  {
    var channel := ChannelOf(conn.user, topic);
    R.StepKeeps(r, R.Release(channel));
    forall ch {
      DropReleases(conn, topic, ch);
    }
    if !r.closed {
      forall ch ensures R.RefCount(R.ReleaseStep(r, channel), ch) == R.RefCount(r, ch) - if ch == channel then 1 else 0 {
        R.CountsChangeOnlyByHolders(r, R.Release(channel), ch);
      }
    }
  }

  lemma UnsubscribedBalances(conn: Conn, r: R.State, topic: Topic)
    requires Sound(conn, r)
    ensures var (conn', r') := Unsubscribed(conn, r, topic); Balanced(conn, r, conn', r')
  {
    var settled := conn.(pending := conn.pending - {ChannelOf(conn.user, topic)});
    assert Held(settled) == Held(conn);
    if Has(conn, topic) {
      DropBalances(settled, r, topic);
    }
  }

  lemma CheckedBalances(conn: Conn, r: R.State, topic: Topic, token: nat, allowed: bool, limits: Limits)
    requires Sound(conn, r)
    ensures var (conn', r', _) := Checked(conn, r, topic, token, allowed, limits); Balanced(conn, r, conn', r')
  {
    var channel := ChannelOf(conn.user, topic);
    var settled := conn.(pending := conn.pending - {channel});
    assert Held(settled) == Held(conn);
    if Checked(conn, r, topic, token, allowed, limits).2 {
      R.StepKeeps(r, R.Retain(channel));
      AddHolds(settled, topic, channel);
      if !r.closed {
        forall ch ensures R.RefCount(R.RetainStep(r, channel), ch) == R.RefCount(r, ch) + if ch == channel then 1 else 0 {
          R.CountsChangeOnlyByHolders(r, R.Retain(channel), ch);
        }
        forall ch {
          AddHolds(settled, topic, ch);
        }
      }
    }
  }

  lemma RemovedBalances(conn: Conn, r: R.State)
    requires Sound(conn, r)
    ensures var (conn', r') := Removed(conn, r); Balanced(conn, r, conn', r') && conn'.closed && Held(conn') == []
  {
    HeldIsDuplicateFree(conn);
    ReleaseAllKeeps(r, Held(conn));
    if !r.closed {
      forall ch {
        ReleaseAllCounts(r, Held(conn), ch);
      }
    }
  }

  lemma ConservedMeansSound(s: System, c: nat)
    requires Conserved(s) && c < |s.conns|
    ensures Sound(s.conns[c], s.redis)
  {
    if !s.redis.closed {
      forall ch | ch in Held(s.conns[c]) ensures R.RefCount(s.redis, ch) > 0 {
        assert c in Holders(s.conns, ch);
      }
    }
  }

  lemma BalancedKeepsConserved(s: System, c: nat, conn: Conn, r: R.State)
    requires Conserved(s) && c < |s.conns|
    requires Balanced(s.conns[c], s.redis, conn, r)
    ensures Conserved(WithConn(s, c, conn, r))
  {
    if !r.closed {
      forall ch {
        HoldersAfter(s.conns, c, conn, ch);
      }
    }
  }

  lemma HoldersAfterOpen(conns: seq<Conn>, user: string, ch: Channel)
    ensures |Holders(conns + [NewConn(user)], ch)| == |Holders(conns, ch)| + if ch == UserUpdates(user) then 1 else 0
  {
    var before, after := Holders(conns, ch), Holders(conns + [NewConn(user)], ch);
    assert Held(NewConn(user)) == [UserUpdates(user)];
    assert after == if ch == UserUpdates(user) then before + {|conns|} else before;
  }

  lemma OpenConserves(s: System, user: string)
    requires Conserved(s)
    ensures Conserved(OpenStep(s, user))
  {
    var channel := UserUpdates(user);
    R.StepKeeps(s.redis, R.Retain(channel));
    if !s.redis.closed {
      forall ch ensures R.RefCount(R.RetainStep(s.redis, channel), ch) == |Holders(s.conns + [NewConn(user)], ch)| {
        HoldersAfterOpen(s.conns, user, ch);
        R.CountsChangeOnlyByHolders(s.redis, R.Retain(channel), ch);
      }
    }
  }

  lemma SetupConserves(s: System, t: nat, ok: bool, open: bool)
    requires Conserved(s) && t in s.tasks && (s.tasks[t].Joining? || s.tasks[t].Loading?) && s.tasks[t].conn < |s.conns|
    ensures Conserved(SetupStep(s, t, ok, open))
  {
    var c := s.tasks[t].conn;
    ConservedMeansSound(s, c);
    RemovedBalances(s.conns[c], s.redis);
    var (conn, r) := Removed(s.conns[c], s.redis);
    BalancedKeepsConserved(s, c, conn, r);
    assert Held(s.conns[c].(initialized := true)) == Held(s.conns[c]);
    BalancedKeepsConserved(s, c, s.conns[c].(initialized := true), s.redis);
  }

  lemma RemoveConserves(s: System, c: nat)
    requires Conserved(s) && c < |s.conns|
    ensures Conserved(RemoveStep(s, c))
  {
    ConservedMeansSound(s, c);
    RemovedBalances(s.conns[c], s.redis);
    var (conn, r) := Removed(s.conns[c], s.redis);
    BalancedKeepsConserved(s, c, conn, r);
  }

  lemma SubscribeConserves(s: System, c: nat, topic: Topic)
    requires Conserved(s) && c < |s.conns|
    ensures Conserved(SubscribeStep(s, c, topic))
  {
    var (conn, begun) := Requested(s.conns[c], topic, s.nextToken, s.limits);
    ConservedMeansSound(s, c);
    assert Held(conn) == Held(s.conns[c]);
    BalancedKeepsConserved(s, c, conn, s.redis);
  }

  lemma UnsubscribeConserves(s: System, c: nat, topic: Topic)
    requires Conserved(s) && c < |s.conns|
    ensures Conserved(UnsubscribeStep(s, c, topic))
  {
    ConservedMeansSound(s, c);
    UnsubscribedBalances(s.conns[c], s.redis, topic);
    var (conn, r) := Unsubscribed(s.conns[c], s.redis, topic);
    BalancedKeepsConserved(s, c, conn, r);
  }

  lemma CheckConserves(s: System, t: nat, allowed: bool)
    requires Conserved(s) && t in s.tasks && s.tasks[t].Checking? && s.tasks[t].conn < |s.conns|
    ensures Conserved(CheckStep(s, t, allowed))
  {
    var Checking(c, topic, token) := s.tasks[t];
    ConservedMeansSound(s, c);
    CheckedBalances(s.conns[c], s.redis, topic, token, allowed, s.limits);
    var (conn, r, retained) := Checked(s.conns[c], s.redis, topic, token, allowed, s.limits);
    assert Held(FreeSlot(conn)) == Held(conn);
    BalancedKeepsConserved(s, c, conn, r);
    BalancedKeepsConserved(s, c, FreeSlot(conn), r);
  }

  lemma FreeSlotConserves(s: System, c: nat)
    requires Conserved(s) && c < |s.conns|
    ensures Conserved(WithConn(s, c, FreeSlot(s.conns[c]), s.redis))
  {
    ConservedMeansSound(s, c);
    assert Held(FreeSlot(s.conns[c])) == Held(s.conns[c]);
    BalancedKeepsConserved(s, c, FreeSlot(s.conns[c]), s.redis);
  }

  lemma RetainSettledConserves(s: System, t: nat, ok: bool)
    requires Conserved(s) && t in s.tasks && s.tasks[t].Retaining? && s.tasks[t].conn < |s.conns|
    ensures Conserved(RetainSettledStep(s, t, ok))
  {
    var Retaining(c, topic) := s.tasks[t];
    ConservedMeansSound(s, c);
    FreeSlotConserves(s, c);
    if Has(s.conns[c], topic) {
      DropBalances(s.conns[c], s.redis, topic);
      var (conn, r) := RolledBack(s.conns[c], s.redis, topic);
      BalancedKeepsConserved(s, c, conn, r);
    }
  }

  lemma RedisConserves(s: System, rev: R.Event)
    requires Conserved(s) && !rev.Retain? && !rev.Release?
    ensures Conserved(s.(redis := R.Step(s.redis, rev)))
  {
    R.StepKeeps(s.redis, rev);
    if !s.redis.closed && !rev.Shutdown? {
      forall ch {
        R.CountsChangeOnlyByHolders(s.redis, rev, ch);
      }
    }
  }

  lemma StepConserves(s: System, ev: Event)
    requires Conserved(s)
    ensures Conserved(Step(s, ev))
  {
    match ev
    case Open(user) => OpenConserves(s, user);
    case Joined(t, ok, open) => if Step(s, ev) != s { SetupConserves(s, t, ok, open); }
    case Loaded(t, ok, open) => if Step(s, ev) != s { SetupConserves(s, t, ok, open); }
    case SubscribeMessage(c, topic) => if c < |s.conns| { SubscribeConserves(s, c, topic); }
    case UnsubscribeMessage(c, topic) => if c < |s.conns| { UnsubscribeConserves(s, c, topic); }
    case CheckSettled(t, allowed) => if Step(s, ev) != s { CheckConserves(s, t, allowed); }
    case RetainSettled(t, ok) => if Step(s, ev) != s { RetainSettledConserves(s, t, ok); }
    case RollbackSettled(t) => if Step(s, ev) != s { FreeSlotConserves(s, s.tasks[t].conn); }
    case Closed(c) => if c < |s.conns| { RemoveConserves(s, c); }
    case Subscriber(rev) => if Step(s, ev) != s { RedisConserves(s, rev); }
    case Shutdown => RedisConserves(s, R.Event.Shutdown);
  }

  lemma {:induction false} ExecConserves(s: System, evs: seq<Event>)
    requires Conserved(s)
    ensures Conserved(Exec(s, evs))
    decreases |evs|
  {
    if evs != [] {
      StepConserves(s, evs[0]);
      ExecConserves(Step(s, evs[0]), evs[1..]);
    }
  }

  // In every interleaving, before shutdown, a channel has exactly one reference per connection
  // that holds it.
  lemma {:induction false} ReferencesAreConserved(limits: Limits, evs: seq<Event>, ch: Channel)
    requires !Exec(Start(limits), evs).redis.closed
    ensures var s := Exec(Start(limits), evs); R.RefCount(s.redis, ch) == |Holders(s.conns, ch)|
  {
    assert forall c :: Holders([], c) == {};
    ExecConserves(Start(limits), evs);
  }

  // The clamp in `release` is never what keeps a count at zero: whenever an operation on a
  // connection releases a channel, that channel still has a reference.
  lemma {:induction false} EveryReleaseFindsAReference(limits: Limits, evs: seq<Event>, c: nat, ch: Channel)
    requires var s := Exec(Start(limits), evs); !s.redis.closed && c < |s.conns| && ch in Held(s.conns[c])
    ensures var s := Exec(Start(limits), evs);
            && R.RefCount(s.redis, ch) > 0
            && R.RefCount(RemoveStep(s, c).redis, ch) == R.RefCount(s.redis, ch) - 1
  {
    var s := Exec(Start(limits), evs);
    assert forall x :: Holders([], x) == {};
    ExecConserves(Start(limits), evs);
    ConservedMeansSound(s, c);
    RemovedBalances(s.conns[c], s.redis);
  }

  // When the promise chain has drained and the channel's latest command was not rejected, Redis
  // is subscribed to the channel exactly if some connection holds it.
  lemma {:induction false} RedisFollowsTheHolders(limits: Limits, evs: seq<Event>, ch: Channel)
    requires var s := Exec(Start(limits), evs);
             s.redis.phase.Idle? && s.redis.queue == [] && !s.redis.closed && ch !in s.redis.failed
    ensures var s := Exec(Start(limits), evs);
            ch in s.redis.redis <==> exists c :: 0 <= c < |s.conns| && ch in Held(s.conns[c])
  {
    var s := Exec(Start(limits), evs);
    assert forall x :: Holders([], x) == {};
    ExecConserves(Start(limits), evs);
    R.DrainedState(s.redis, ch);
    if c :| 0 <= c < |s.conns| && ch in Held(s.conns[c]) {
      assert c in Holders(s.conns, ch);
    } else {
      assert Holders(s.conns, ch) == {};
    }
  }

  // ---------- Requests, tasks and slots ----------

  predicate OwnsSlot(task: Task) { task.Checking? || task.Retaining? || task.RollingBack? }

  function SlotsOf(tasks: map<nat, Task>, c: nat): set<nat> {
    set t | t in tasks && OwnsSlot(tasks[t]) && tasks[t].conn == c
  }

  ghost predicate Assigned(s: System) {
    forall t :: t in s.tasks ==> t < s.nextTask && s.tasks[t].conn < |s.conns|
  }

  // A connection that finished its setup has no setup task left, so nothing of its setup can
  // remove it any more.
  ghost predicate SetUpOnce(s: System) {
    && Assigned(s)
    && (forall t :: t in s.tasks && !OwnsSlot(s.tasks[t]) ==> !s.conns[s.tasks[t].conn].initialized)
    && (forall t, u :: (t in s.tasks && u in s.tasks && !OwnsSlot(s.tasks[t]) && !OwnsSlot(s.tasks[u])
                        && s.tasks[t].conn == s.tasks[u].conn) ==> t == u)
  }

  ghost predicate Ticketed(s: System) {
    && Assigned(s)
    && (forall t :: t in s.tasks && s.tasks[t].Checking? ==> s.tasks[t].token < s.nextToken)
    && (forall t :: t in s.tasks && s.tasks[t].Checking? ==> NotAhead(s, t))
  }

  // A pending request is the newest one for its channel.
  ghost predicate NotAhead(s: System, t: nat)
    requires t in s.tasks && s.tasks[t].Checking? && s.tasks[t].conn < |s.conns|
  {
    var conn := s.conns[s.tasks[t].conn];
    var channel := ChannelOf(conn.user, s.tasks[t].topic);
    channel in conn.pending ==> s.tasks[t].token <= conn.pending[channel]
  }

  ghost predicate Bounded(s: System, c: nat)
    requires c < |s.conns|
  {
    var conn := s.conns[c];
    && conn.checks == |SlotsOf(s.tasks, c)| <= s.limits.maxJobs + s.limits.maxChats
    && |conn.jobs| <= s.limits.maxJobs && |conn.chats| <= s.limits.maxChats
  }

  ghost predicate Slotted(s: System) {
    Assigned(s) && forall c :: 0 <= c < |s.conns| ==> Bounded(s, c)
  }

  lemma TaskAdded(tasks: map<nat, Task>, t: nat, task: Task)
    requires t !in tasks
    ensures forall c :: |SlotsOf(tasks[t := task], c)| ==
                        |SlotsOf(tasks, c)| + if OwnsSlot(task) && task.conn == c then 1 else 0
  {
    forall c ensures |SlotsOf(tasks[t := task], c)| == |SlotsOf(tasks, c)| + if OwnsSlot(task) && task.conn == c then 1 else 0 {
      var before, after := SlotsOf(tasks, c), SlotsOf(tasks[t := task], c);
      assert after == if OwnsSlot(task) && task.conn == c then before + {t} else before;
    }
  }

  lemma TaskRemoved(tasks: map<nat, Task>, t: nat)
    requires t in tasks
    ensures forall c :: |SlotsOf(tasks - {t}, c)| ==
                        |SlotsOf(tasks, c)| - if OwnsSlot(tasks[t]) && tasks[t].conn == c then 1 else 0
  {
    forall c ensures |SlotsOf(tasks - {t}, c)| == |SlotsOf(tasks, c)| - if OwnsSlot(tasks[t]) && tasks[t].conn == c then 1 else 0 {
      var before, after := SlotsOf(tasks, c), SlotsOf(tasks - {t}, c);
      assert before == if OwnsSlot(tasks[t]) && tasks[t].conn == c then after + {t} else after;
    }
  }

  lemma TaskReplaced(tasks: map<nat, Task>, t: nat, task: Task)
    requires t in tasks && OwnsSlot(task) == OwnsSlot(tasks[t]) && task.conn == tasks[t].conn
    ensures forall c :: SlotsOf(tasks[t := task], c) == SlotsOf(tasks, c)
  {
    forall c ensures SlotsOf(tasks[t := task], c) == SlotsOf(tasks, c) {
    }
  }

  lemma SetupSetsUpOnce(s: System, t: nat, ok: bool, open: bool)
    requires SetUpOnce(s) && t in s.tasks && !OwnsSlot(s.tasks[t])
    ensures SetUpOnce(SetupStep(s, t, ok, open))
  {
  }

  lemma OthersSetUpOnce(s: System, r: System)
    requires SetUpOnce(s) && Assigned(r) && |r.conns| == |s.conns|
    requires forall t :: t in r.tasks && !OwnsSlot(r.tasks[t]) ==> t in s.tasks && r.tasks[t] == s.tasks[t]
    requires forall c :: 0 <= c < |s.conns| ==> r.conns[c].initialized == s.conns[c].initialized
    ensures SetUpOnce(r)
  {
  }

  lemma OpenSetsUpOnce(s: System, user: string)
    requires SetUpOnce(s)
    ensures SetUpOnce(OpenStep(s, user))
  {
  }

  lemma StepSetsUpOnce(s: System, ev: Event)
    requires SetUpOnce(s)
    ensures SetUpOnce(Step(s, ev))
  {
    match ev
    case Open(user) => OpenSetsUpOnce(s, user);
    case Joined(t, ok, open) => if Step(s, ev) != s { SetupSetsUpOnce(s, t, ok, open); }
    case Loaded(t, ok, open) => if Step(s, ev) != s { SetupSetsUpOnce(s, t, ok, open); }
    case SubscribeMessage(c, topic) => if c < |s.conns| { RequestsSetUpOnce(s, c, topic); }
    case CheckSettled(t, allowed) => if Step(s, ev) != s { ChecksSetUpOnce(s, t, allowed); }
    case _ => EndingsSetUpOnce(s, ev);
  }

  lemma RequestsSetUpOnce(s: System, c: nat, topic: Topic)
    requires SetUpOnce(s) && c < |s.conns|
    ensures SetUpOnce(SubscribeStep(s, c, topic))
  {
    OthersSetUpOnce(s, SubscribeStep(s, c, topic));
  }

  lemma ChecksSetUpOnce(s: System, t: nat, allowed: bool)
    requires SetUpOnce(s) && t in s.tasks && s.tasks[t].Checking?
    ensures SetUpOnce(CheckStep(s, t, allowed))
  {
    OthersSetUpOnce(s, CheckStep(s, t, allowed));
  }

  lemma UnsubscribeSetsUpOnce(s: System, c: nat, topic: Topic)
    requires SetUpOnce(s) && c < |s.conns|
    ensures SetUpOnce(UnsubscribeStep(s, c, topic))
  {
    OthersSetUpOnce(s, UnsubscribeStep(s, c, topic));
  }

  lemma RemoveSetsUpOnce(s: System, c: nat)
    requires SetUpOnce(s) && c < |s.conns|
    ensures SetUpOnce(RemoveStep(s, c))
  {
    OthersSetUpOnce(s, RemoveStep(s, c));
  }

  lemma RetainSetsUpOnce(s: System, t: nat, ok: bool)
    requires SetUpOnce(s) && t in s.tasks && s.tasks[t].Retaining? && s.tasks[t].conn < |s.conns|
    ensures SetUpOnce(RetainSettledStep(s, t, ok))
  {
    OthersSetUpOnce(s, RetainSettledStep(s, t, ok));
  }

  lemma RedisSetsUpOnce(s: System, ev: Event)
    requires SetUpOnce(s) && (ev.Subscriber? || ev.Shutdown?)
    ensures SetUpOnce(Step(s, ev))
  {
    OthersSetUpOnce(s, Step(s, ev));
  }

  lemma EndingsSetUpOnce(s: System, ev: Event)
    requires SetUpOnce(s)
    requires ev.UnsubscribeMessage? || ev.RetainSettled? || ev.RollbackSettled? || ev.Closed? || ev.Subscriber? || ev.Shutdown?
    ensures SetUpOnce(Step(s, ev))
  {
    match ev
    case UnsubscribeMessage(c, topic) => if c < |s.conns| { UnsubscribeSetsUpOnce(s, c, topic); }
    case Closed(c) => if c < |s.conns| { RemoveSetsUpOnce(s, c); }
    case RetainSettled(t, ok) =>
      if t in s.tasks && s.tasks[t].Retaining? && s.tasks[t].conn < |s.conns| {
        RetainSetsUpOnce(s, t, ok);
      }
    case RollbackSettled(t) =>
      if t in s.tasks && s.tasks[t].RollingBack? && s.tasks[t].conn < |s.conns| {
        SlotFreed(s, t);
      }
    case _ => RedisSetsUpOnce(s, ev);
  }

  lemma SlotFreed(s: System, t: nat)
    requires SetUpOnce(s) && t in s.tasks && s.tasks[t].RollingBack? && s.tasks[t].conn < |s.conns|
    ensures SetUpOnce(Step(s, RollbackSettled(t)))
  {
    OthersSetUpOnce(s, Step(s, RollbackSettled(t)));
  }

  lemma {:induction false} ExecSetsUpOnce(s: System, evs: seq<Event>)
    requires SetUpOnce(s)
    ensures SetUpOnce(Exec(s, evs))
    decreases |evs|
  {
    if evs != [] {
      StepSetsUpOnce(s, evs[0]);
      ExecSetsUpOnce(Step(s, evs[0]), evs[1..]);
    }
  }

  lemma SubscribeTickets(s: System, c: nat, topic: Topic)
    requires Ticketed(s) && c < |s.conns|
    ensures Ticketed(SubscribeStep(s, c, topic))
  {
    var r := SubscribeStep(s, c, topic);
    forall t | t in r.tasks && r.tasks[t].Checking? ensures NotAhead(r, t) {
      if t in s.tasks {
        assert NotAhead(s, t);
      }
    }
  }

  // Every other event leaves the pending requests as they are or drops some.
  lemma OthersTicket(s: System, r: System)
    requires Ticketed(s) && Assigned(r) && r.nextToken == s.nextToken && |s.conns| <= |r.conns|
    requires forall t :: t in r.tasks && r.tasks[t].Checking? ==> t in s.tasks && r.tasks[t] == s.tasks[t]
    requires forall c :: 0 <= c < |s.conns| ==> r.conns[c].user == s.conns[c].user
    requires forall c, ch :: 0 <= c < |s.conns| && ch in r.conns[c].pending ==>
               ch in s.conns[c].pending && r.conns[c].pending[ch] == s.conns[c].pending[ch]
    ensures Ticketed(r)
  {
    forall t | t in r.tasks && r.tasks[t].Checking? ensures NotAhead(r, t) {
      assert NotAhead(s, t);
    }
  }

  lemma StepTickets(s: System, ev: Event)
    requires Ticketed(s)
    ensures Ticketed(Step(s, ev))
  {
    if ev.SubscribeMessage? {
      if ev.conn < |s.conns| {
        SubscribeTickets(s, ev.conn, ev.topic);
      }
    } else if ev.CheckSettled? {
      if Step(s, ev) != s {
        CheckTickets(s, ev.task, ev.allowed);
      }
    } else if ev.Joined? || ev.Loaded? || ev.Open? {
      SetupTickets(s, ev);
    } else {
      EndingsTicket(s, ev);
    }
  }

  lemma CheckTickets(s: System, t: nat, allowed: bool)
    requires Ticketed(s) && t in s.tasks && s.tasks[t].Checking?
    ensures Ticketed(CheckStep(s, t, allowed))
  {
    OthersTicket(s, CheckStep(s, t, allowed));
  }

  lemma SetupTickets(s: System, ev: Event)
    requires Ticketed(s) && (ev.Joined? || ev.Loaded? || ev.Open?)
    ensures Ticketed(Step(s, ev))
  {
    OthersTicket(s, Step(s, ev));
  }

  lemma UnsubscribeTickets(s: System, c: nat, topic: Topic)
    requires Ticketed(s) && c < |s.conns|
    ensures Ticketed(UnsubscribeStep(s, c, topic))
  {
    OthersTicket(s, UnsubscribeStep(s, c, topic));
  }

  lemma RemoveTickets(s: System, c: nat)
    requires Ticketed(s) && c < |s.conns|
    ensures Ticketed(RemoveStep(s, c))
  {
    OthersTicket(s, RemoveStep(s, c));
  }

  lemma RetainTickets(s: System, t: nat, ok: bool)
    requires Ticketed(s) && t in s.tasks && s.tasks[t].Retaining? && s.tasks[t].conn < |s.conns|
    ensures Ticketed(RetainSettledStep(s, t, ok))
  {
    OthersTicket(s, RetainSettledStep(s, t, ok));
  }

  lemma RedisTickets(s: System, ev: Event)
    requires Ticketed(s) && (ev.Subscriber? || ev.Shutdown?)
    ensures Ticketed(Step(s, ev))
  {
    OthersTicket(s, Step(s, ev));
  }

  lemma EndingsTicket(s: System, ev: Event)
    requires Ticketed(s)
    requires ev.UnsubscribeMessage? || ev.RetainSettled? || ev.RollbackSettled? || ev.Closed? || ev.Subscriber? || ev.Shutdown?
    ensures Ticketed(Step(s, ev))
  {
    match ev
    case UnsubscribeMessage(c, topic) => if c < |s.conns| { UnsubscribeTickets(s, c, topic); }
    case Closed(c) => if c < |s.conns| { RemoveTickets(s, c); }
    case RetainSettled(t, ok) =>
      if t in s.tasks && s.tasks[t].Retaining? && s.tasks[t].conn < |s.conns| {
        RetainTickets(s, t, ok);
      }
    case RollbackSettled(t) =>
      if t in s.tasks && s.tasks[t].RollingBack? && s.tasks[t].conn < |s.conns| {
        SlotFreedTickets(s, t);
      }
    case _ => RedisTickets(s, ev);
  }

  lemma SlotFreedTickets(s: System, t: nat)
    requires Ticketed(s) && t in s.tasks && s.tasks[t].RollingBack? && s.tasks[t].conn < |s.conns|
    ensures Ticketed(Step(s, RollbackSettled(t)))
  {
    OthersTicket(s, Step(s, RollbackSettled(t)));
  }

  lemma {:induction false} ExecTickets(s: System, evs: seq<Event>)
    requires Ticketed(s)
    ensures Ticketed(Exec(s, evs))
    decreases |evs|
  {
    if evs != [] {
      StepTickets(s, evs[0]);
      ExecTickets(Step(s, evs[0]), evs[1..]);
    }
  }

  lemma OpenSlots(s: System, user: string)
    requires Slotted(s)
    ensures Slotted(OpenStep(s, user))
  {
    TaskAdded(s.tasks, s.nextTask, Joining(|s.conns|));
    assert SlotsOf(s.tasks, |s.conns|) == {};
    forall c: nat | c < |s.conns| + 1 ensures Bounded(OpenStep(s, user), c) {
      assert c < |s.conns| ==> Bounded(s, c);
    }
  }

  lemma SetupSlots(s: System, t: nat, ok: bool, open: bool)
    requires Slotted(s) && t in s.tasks && (s.tasks[t].Joining? || s.tasks[t].Loading?)
    ensures Slotted(SetupStep(s, t, ok, open))
  {
    TaskRemoved(s.tasks, t);
    TaskReplaced(s.tasks, t, Loading(s.tasks[t].conn));
    forall c: nat | c < |s.conns| ensures Bounded(SetupStep(s, t, ok, open), c) {
      assert Bounded(s, c);
    }
  }

  lemma SubscribeSlots(s: System, c: nat, topic: Topic)
    requires Slotted(s) && c < |s.conns|
    ensures Slotted(SubscribeStep(s, c, topic))
  {
    TaskAdded(s.tasks, s.nextTask, Checking(c, topic, s.nextToken));
    forall d: nat | d < |s.conns| ensures Bounded(SubscribeStep(s, c, topic), d) {
      assert Bounded(s, d);
    }
  }

  lemma CheckSlots(s: System, t: nat, allowed: bool)
    requires Slotted(s) && t in s.tasks && s.tasks[t].Checking?
    ensures Slotted(CheckStep(s, t, allowed))
  {
    var Checking(c, topic, token) := s.tasks[t];
    TaskRemoved(s.tasks, t);
    TaskReplaced(s.tasks, t, Retaining(c, topic));
    assert t in SlotsOf(s.tasks, c);
    forall d: nat | d < |s.conns| ensures Bounded(CheckStep(s, t, allowed), d) {
      assert Bounded(s, d);
    }
  }

  lemma RetainSettledSlots(s: System, t: nat, ok: bool)
    requires Slotted(s) && t in s.tasks && s.tasks[t].Retaining?
    ensures Slotted(RetainSettledStep(s, t, ok))
  {
    TaskRemoved(s.tasks, t);
    TaskReplaced(s.tasks, t, RollingBack(s.tasks[t].conn));
    assert t in SlotsOf(s.tasks, s.tasks[t].conn);
    forall d: nat | d < |s.conns| ensures Bounded(RetainSettledStep(s, t, ok), d) {
      assert Bounded(s, d);
    }
  }

  lemma UnsubscribeSlots(s: System, c: nat, topic: Topic)
    requires Slotted(s) && c < |s.conns|
    ensures Slotted(UnsubscribeStep(s, c, topic)) && Slotted(RemoveStep(s, c))
  {
    forall d: nat | d < |s.conns| ensures Bounded(UnsubscribeStep(s, c, topic), d) && Bounded(RemoveStep(s, c), d) {
      assert Bounded(s, d);
    }
  }

  lemma RollbackSettledSlots(s: System, t: nat)
    requires Slotted(s) && t in s.tasks && s.tasks[t].RollingBack?
    ensures Slotted(Step(s, RollbackSettled(t)))
  {
    TaskRemoved(s.tasks, t);
    assert t in SlotsOf(s.tasks, s.tasks[t].conn);
    forall d: nat | d < |s.conns| ensures Bounded(Step(s, RollbackSettled(t)), d) {
      assert Bounded(s, d);
    }
  }

  lemma StepSlots(s: System, ev: Event)
    requires Slotted(s)
    ensures Slotted(Step(s, ev))
  {
    match ev
    case Open(user) => OpenSlots(s, user);
    case Joined(t, ok, open) => if Step(s, ev) != s { SetupSlots(s, t, ok, open); }
    case Loaded(t, ok, open) => if Step(s, ev) != s { SetupSlots(s, t, ok, open); }
    case SubscribeMessage(c, topic) => if c < |s.conns| { SubscribeSlots(s, c, topic); }
    case UnsubscribeMessage(c, topic) => if c < |s.conns| { UnsubscribeSlots(s, c, topic); }
    case CheckSettled(t, allowed) => if Step(s, ev) != s { CheckSlots(s, t, allowed); }
    case RetainSettled(t, ok) => if Step(s, ev) != s { RetainSettledSlots(s, t, ok); }
    case RollbackSettled(t) => if Step(s, ev) != s { RollbackSettledSlots(s, t); }
    case Closed(c) => if c < |s.conns| { UnsubscribeSlots(s, c, Job("")); }
    case Subscriber(rev) => ConnsUntouched(s, Step(s, ev));
    case Shutdown => ConnsUntouched(s, Step(s, ev));
  }

  lemma ConnsUntouched(s: System, r: System)
    requires Slotted(s) && r == s.(redis := r.redis)
    ensures Slotted(r)
  {
    forall c: nat | c < |s.conns| ensures Bounded(r, c) {
      assert Bounded(s, c);
    }
  }

  lemma {:induction false} ExecSlots(s: System, evs: seq<Event>)
    requires Slotted(s)
    ensures Slotted(Exec(s, evs))
    decreases |evs|
  {
    if evs != [] {
      StepSlots(s, evs[0]);
      ExecSlots(Step(s, evs[0]), evs[1..]);
    }
  }

  // A connection never exceeds its topic limits, nor runs more ownership checks than its limits
  // allow together; every slot it counts belongs to a task that will free it.
  lemma {:induction false} LimitsHold(limits: Limits, evs: seq<Event>, c: nat)
    requires c < |Exec(Start(limits), evs).conns|
    ensures var s := Exec(Start(limits), evs);
            && |s.conns[c].jobs| <= limits.maxJobs && |s.conns[c].chats| <= limits.maxChats
            && s.conns[c].checks == |SlotsOf(s.tasks, c)| <= limits.maxJobs + limits.maxChats
  {
    ExecSlots(Start(limits), evs);
    LimitsAreFixed(Start(limits), evs);
    assert Bounded(Exec(Start(limits), evs), c);
  }

  lemma {:induction false} LimitsAreFixed(s: System, evs: seq<Event>)
    ensures Exec(s, evs).limits == s.limits
    decreases |evs|
  {
    if evs != [] {
      LimitsAreFixed(Step(s, evs[0]), evs[1..]);
    }
  }

  // ---------- No resurrected subscriptions ----------

  ghost predicate Dropped(s: System, c: nat, topic: Topic) {
    && c < |s.conns|
    && !Has(s.conns[c], topic)
    && ChannelOf(s.conns[c].user, topic) !in s.conns[c].pending
  }

  lemma UnsubscribeDrops(s: System, c: nat, topic: Topic)
    requires c < |s.conns| && s.conns[c].initialized && !s.conns[c].closed
    ensures Dropped(Step(s, UnsubscribeMessage(c, topic)), c, topic)
  {
  }

  lemma DroppedAtSubscribe(s: System, d: nat, other: Topic, c: nat, topic: Topic)
    requires Dropped(s, c, topic) && d < |s.conns| && (d != c || other != topic)
    ensures Dropped(SubscribeStep(s, d, other), c, topic)
  {
    ChannelsAreDistinct(s.conns[c].user, topic, other);
  }

  lemma DroppedAtCheck(s: System, t: nat, allowed: bool, c: nat, topic: Topic)
    requires Dropped(s, c, topic) && t in s.tasks && s.tasks[t].Checking? && s.tasks[t].conn < |s.conns|
    ensures Dropped(CheckStep(s, t, allowed), c, topic)
  {
  }

  lemma DroppedAtRollback(s: System, t: nat, ok: bool, c: nat, topic: Topic)
    requires Dropped(s, c, topic) && t in s.tasks && s.tasks[t].Retaining? && s.tasks[t].conn < |s.conns|
    ensures Dropped(RetainSettledStep(s, t, ok), c, topic)
  {
  }

  lemma DroppedStaysForAStep(s: System, ev: Event, c: nat, topic: Topic)
    requires Dropped(s, c, topic) && ev != SubscribeMessage(c, topic)
    ensures Dropped(Step(s, ev), c, topic)
  {
    match ev
    case SubscribeMessage(d, other) => if d < |s.conns| { DroppedAtSubscribe(s, d, other, c, topic); }
    case CheckSettled(t, allowed) => if Step(s, ev) != s { DroppedAtCheck(s, t, allowed, c, topic); }
    case RetainSettled(t, ok) => if Step(s, ev) != s { DroppedAtRollback(s, t, ok, c, topic); }
    case _ =>
  }

  lemma {:induction false} DroppedStays(s: System, evs: seq<Event>, c: nat, topic: Topic)
    requires Dropped(s, c, topic) && SubscribeMessage(c, topic) !in evs
    ensures Dropped(Exec(s, evs), c, topic)
    decreases |evs|
  {
    if evs != [] {
      DroppedStaysForAStep(s, evs[0], c, topic);
      DroppedStays(Step(s, evs[0]), evs[1..], c, topic);
    }
  }

  // If the last message for a topic was an unsubscribe, then whatever checks, retains and Redis
  // commands settle afterwards, and in whatever order, the connection does not hold the topic.
  lemma {:induction false} UnsubscribeIsFinal(s: System, evs: seq<Event>, c: nat, topic: Topic)
    requires c < |s.conns| && s.conns[c].initialized && !s.conns[c].closed
    requires SubscribeMessage(c, topic) !in evs
    ensures Dropped(Exec(Step(s, UnsubscribeMessage(c, topic)), evs), c, topic)
  {
    UnsubscribeDrops(s, c, topic);
    DroppedStays(Step(s, UnsubscribeMessage(c, topic)), evs, c, topic);
  }

  ghost predicate Gone(s: System, c: nat) {
    c < |s.conns| && s.conns[c].closed && Held(s.conns[c]) == [] && s.conns[c].pending == map[]
  }

  // A removed connection never holds a channel again, not even through messages still handled.
  lemma {:induction false} RemovalIsFinal(s: System, evs: seq<Event>, c: nat)
    requires Gone(s, c)
    ensures Gone(Exec(s, evs), c)
    decreases |evs|
  {
    if evs != [] {
      GoneStays(s, evs[0], c);
      RemovalIsFinal(Step(s, evs[0]), evs[1..], c);
    }
  }

  lemma GoneStays(s: System, ev: Event, c: nat)
    requires Gone(s, c)
    ensures Gone(Step(s, ev), c)
  {
    match ev
    case Joined(t, ok, open) => if Step(s, ev) != s { assert Step(s, ev) == SetupStep(s, t, ok, open); }
    case Loaded(t, ok, open) => if Step(s, ev) != s { assert Step(s, ev) == SetupStep(s, t, ok, open); }
    case _ =>
  }

  lemma ClosedConnectionsAreGone(limits: Limits, evs: seq<Event>, c: nat)
    requires var s := Exec(Start(limits), evs); c < |s.conns| && s.conns[c].closed
    ensures Gone(Exec(Start(limits), evs), c)
  {
    assert forall x :: Holders([], x) == {};
    ExecConserves(Start(limits), evs);
  }

  // Only the newest request for a topic can add it: a check that a later request superseded
  // settles without effect on any hold.
  lemma {:induction false} OnlyTheNewestRequestAdds(limits: Limits, evs: seq<Event>, t: nat, u: nat, allowed: bool)
    requires var s := Exec(Start(limits), evs);
             && t in s.tasks && u in s.tasks && s.tasks[t].Checking? && s.tasks[u].Checking?
             && s.tasks[t].conn == s.tasks[u].conn && s.tasks[t].topic == s.tasks[u].topic
             && s.tasks[t].token < s.tasks[u].token
    ensures var s := Exec(Start(limits), evs);
            var c := s.tasks[t].conn;
            && c < |s.conns| && Held(Step(s, CheckSettled(t, allowed)).conns[c]) == Held(s.conns[c])
            && Step(s, CheckSettled(t, allowed)).redis == s.redis
  {
    var s := Exec(Start(limits), evs);
    ExecTickets(Start(limits), evs);
    assert NotAhead(s, u);
  }

  // ---------- Subscriptions that last ----------

  // An event that may take the topic away: an unsubscribe, the end of the connection, or the
  // rejection of some retain of this topic, even one of an older subscription.
  ghost predicate Threatens(s: System, ev: Event, c: nat, topic: Topic) {
    || ev == UnsubscribeMessage(c, topic)
    || ev == Closed(c)
    || (ev.RetainSettled? && !ev.ok && ev.task in s.tasks && s.tasks[ev.task] == Retaining(c, topic))
  }

  ghost predicate Undisturbed(s: System, evs: seq<Event>, c: nat, topic: Topic)
    decreases |evs|
  {
    evs == [] || (!Threatens(s, evs[0], c, topic) && Undisturbed(Step(s, evs[0]), evs[1..], c, topic))
  }

  lemma {:induction false} UndisturbedSubscriptionsLast(s: System, evs: seq<Event>, c: nat, topic: Topic)
    requires SetUpOnce(s) && HoldsOn(s, c, topic) && Undisturbed(s, evs, c, topic)
    ensures HoldsOn(Exec(s, evs), c, topic)
    decreases |evs|
  {
    if evs != [] {
      StepSetsUpOnce(s, evs[0]);
      HoldSurvivesAStep(s, evs[0], c, topic);
      UndisturbedSubscriptionsLast(Step(s, evs[0]), evs[1..], c, topic);
    }
  }

  ghost predicate HoldsOn(s: System, c: nat, topic: Topic) {
    c < |s.conns| && s.conns[c].initialized && Has(s.conns[c], topic)
  }

  lemma HoldSurvivesACheck(s: System, t: nat, allowed: bool, c: nat, topic: Topic)
    requires HoldsOn(s, c, topic) && t in s.tasks && s.tasks[t].Checking? && s.tasks[t].conn < |s.conns|
    ensures HoldsOn(CheckStep(s, t, allowed), c, topic)
  {
  }

  lemma HoldSurvivesASetup(s: System, t: nat, ok: bool, open: bool, c: nat, topic: Topic)
    requires SetUpOnce(s) && HoldsOn(s, c, topic) && t in s.tasks && (s.tasks[t].Joining? || s.tasks[t].Loading?)
    ensures HoldsOn(SetupStep(s, t, ok, open), c, topic)
  {
    assert s.tasks[t].conn != c;
  }

  lemma HoldSurvivesAnUnsubscribe(s: System, d: nat, other: Topic, c: nat, topic: Topic)
    requires HoldsOn(s, c, topic) && d < |s.conns| && (d != c || other != topic)
    ensures HoldsOn(UnsubscribeStep(s, d, other), c, topic)
  {
  }

  lemma HoldSurvivesASettledRetain(s: System, t: nat, ok: bool, c: nat, topic: Topic)
    requires HoldsOn(s, c, topic) && t in s.tasks && s.tasks[t].Retaining? && s.tasks[t].conn < |s.conns|
    requires ok || s.tasks[t] != Retaining(c, topic)
    ensures HoldsOn(RetainSettledStep(s, t, ok), c, topic)
  {
  }

  lemma HoldSurvivesARequest(s: System, d: nat, other: Topic, c: nat, topic: Topic)
    requires HoldsOn(s, c, topic) && d < |s.conns|
    ensures HoldsOn(SubscribeStep(s, d, other), c, topic)
  {
  }

  lemma HoldSurvivesAStep(s: System, ev: Event, c: nat, topic: Topic)
    requires SetUpOnce(s) && HoldsOn(s, c, topic) && !Threatens(s, ev, c, topic)
    ensures HoldsOn(Step(s, ev), c, topic)
  {
    match ev
    case Joined(t, ok, open) => if Step(s, ev) != s { HoldSurvivesASetup(s, t, ok, open, c, topic); }
    case Loaded(t, ok, open) => if Step(s, ev) != s { HoldSurvivesASetup(s, t, ok, open, c, topic); }
    case SubscribeMessage(d, other) => if d < |s.conns| { HoldSurvivesARequest(s, d, other, c, topic); }
    case CheckSettled(t, allowed) => if Step(s, ev) != s { HoldSurvivesACheck(s, t, allowed, c, topic); }
    case UnsubscribeMessage(d, other) => if d < |s.conns| { HoldSurvivesAnUnsubscribe(s, d, other, c, topic); }
    case RetainSettled(t, ok) => if Step(s, ev) != s { HoldSurvivesASettledRetain(s, t, ok, c, topic); }
    case _ =>
  }

  lemma ThreatsDrop(s: System, ev: Event, c: nat, topic: Topic)
    requires Conserved(s) && HoldsOn(s, c, topic) && Threatens(s, ev, c, topic)
    ensures !HoldsOn(Step(s, ev), c, topic)
  {
    assert WellFormed(s.conns[c]);
    match ev
    case RetainSettled(t, ok) => RejectionDrops(s, t, c, topic);
    case _ =>
  }

  lemma RejectionDrops(s: System, t: nat, c: nat, topic: Topic)
    requires HoldsOn(s, c, topic) && WellFormed(s.conns[c]) && t in s.tasks && s.tasks[t] == Retaining(c, topic)
    ensures !HoldsOn(RetainSettledStep(s, t, false), c, topic)
  {
  }

  ghost predicate HeldThroughout(s: System, evs: seq<Event>, c: nat, topic: Topic) {
    forall n :: 0 <= n <= |evs| ==> HoldsOn(Exec(s, evs[..n]), c, topic)
  }

  lemma HeldThroughoutUnfolds(s: System, evs: seq<Event>, c: nat, topic: Topic)
    requires evs != []
    ensures HeldThroughout(s, evs, c, topic) <==>
            HoldsOn(s, c, topic) && HeldThroughout(Step(s, evs[0]), evs[1..], c, topic)
  {
    assert forall n :: 0 < n <= |evs| ==> evs[..n][0] == evs[0] && evs[..n][1..] == evs[1..][..n - 1];
    assert evs[..0] == [];
    if HeldThroughout(s, evs, c, topic) {
      forall n | 0 <= n <= |evs[1..]| ensures HoldsOn(Exec(Step(s, evs[0]), evs[1..][..n]), c, topic) {
        assert Exec(s, evs[..n + 1]) == Exec(Step(s, evs[0]), evs[1..][..n]);
      }
    }
    if HoldsOn(s, c, topic) && HeldThroughout(Step(s, evs[0]), evs[1..], c, topic) {
      forall n | 0 <= n <= |evs| ensures HoldsOn(Exec(s, evs[..n]), c, topic) {
        if n > 0 {
          assert Exec(s, evs[..n]) == Exec(Step(s, evs[0]), evs[1..][..n - 1]);
        }
      }
    }
  }

  lemma {:induction false} HeldMeansUndisturbed(s: System, evs: seq<Event>, c: nat, topic: Topic)
    requires SetUpOnce(s) && Conserved(s) && HoldsOn(s, c, topic)
    ensures HeldThroughout(s, evs, c, topic) <==> Undisturbed(s, evs, c, topic)
    decreases |evs|
  {
    if evs == [] {
      assert evs[..0] == [];
    } else {
      HeldThroughoutUnfolds(s, evs, c, topic);
      if Threatens(s, evs[0], c, topic) {
        ThreatsDrop(s, evs[0], c, topic);
        assert evs[1..][..0] == [];
        assert Exec(Step(s, evs[0]), evs[1..][..0]) == Step(s, evs[0]);
      } else {
        HoldSurvivesAStep(s, evs[0], c, topic);
        StepSetsUpOnce(s, evs[0]);
        StepConserves(s, evs[0]);
        HeldMeansUndisturbed(Step(s, evs[0]), evs[1..], c, topic);
      }
    }
  }

  // In every run, a subscription is held throughout if and only if no event threatens it: no
  // unsubscribe, no end of the connection, and no rejection of any retain of its topic.
  lemma {:induction false} SubscriptionsLastExactly(limits: Limits, before: seq<Event>, evs: seq<Event>, c: nat, topic: Topic)
    ensures var s := Exec(Start(limits), before);
            HoldsOn(s, c, topic) ==> (HeldThroughout(s, evs, c, topic) <==> Undisturbed(s, evs, c, topic))
  {
    var s := Exec(Start(limits), before);
    assert forall ch :: Holders([], ch) == {};
    ExecConserves(Start(limits), before);
    ExecSetsUpOnce(Start(limits), before);
    if HoldsOn(s, c, topic) {
      HeldMeansUndisturbed(s, evs, c, topic);
    }
  }

  // An unsubscribe and a second request, which is granted, while the first retain is still awaited.
  function Resubscribed(s: System, c: nat, topic: Topic): System {
    var s1 := Step(s, UnsubscribeMessage(c, topic));
    Step(Step(s1, SubscribeMessage(c, topic)), CheckSettled(s1.nextTask, true))
  }

  ghost predicate Resubscribable(s: System, c: nat, topic: Topic) {
    && Assigned(s) && c < |s.conns|
    && s.conns[c].initialized && !s.conns[c].closed && ValidTopic(topic)
    && s.conns[c].checks < s.limits.maxJobs + s.limits.maxChats
    && |s.conns[c].jobs| <= s.limits.maxJobs && |s.conns[c].chats| <= s.limits.maxChats
  }

  lemma RequestsAgain(s: System, c: nat, topic: Topic)
    requires Resubscribable(s, c, topic) && Has(s.conns[c], topic)
    ensures var s1 := Step(s, UnsubscribeMessage(c, topic));
            var s2 := Step(s1, SubscribeMessage(c, topic));
            && s1.tasks == s.tasks && s1.nextTask == s.nextTask && c < |s2.conns|
            && s2.tasks == s.tasks[s.nextTask := Checking(c, topic, s.nextToken)]
            && !Has(s2.conns[c], topic) && !Full(s2.conns[c], topic, s.limits) && !s2.conns[c].closed && s2.limits == s.limits
            && ChannelOf(s2.conns[c].user, topic) in s2.conns[c].pending
            && s2.conns[c].pending[ChannelOf(s2.conns[c].user, topic)] == s.nextToken
            && s2.conns[c].initialized
  {
    var s1 := Step(s, UnsubscribeMessage(c, topic));
    assert !Has(s1.conns[c], topic) && !Full(s1.conns[c], topic, s.limits) && s1.tasks == s.tasks;
  }

  lemma GrantsAgain(s: System, c: nat, topic: Topic, t: nat, token: nat)
    requires t in s.tasks && s.tasks[t] == Checking(c, topic, token) && c < |s.conns|
    requires !Has(s.conns[c], topic) && !Full(s.conns[c], topic, s.limits) && !s.conns[c].closed
    requires ChannelOf(s.conns[c].user, topic) in s.conns[c].pending
             && s.conns[c].pending[ChannelOf(s.conns[c].user, topic)] == token
    ensures var r := Step(s, CheckSettled(t, true));
            r.tasks == s.tasks[t := Retaining(c, topic)] && |r.conns| == |s.conns| && Has(r.conns[c], topic)
  {
  }

  // Without the condition on rejections the promise fails, in every state where a subscription is
  // held while its retain is awaited: after an unsubscribe and a second, granted subscription, the
  // late rejection of the first retain drops the second subscription.
  lemma StaleRejectionDropsTheNewerSubscription(s: System, c: nat, topic: Topic, t: nat)
    requires Resubscribable(s, c, topic) && Has(s.conns[c], topic)
    requires t in s.tasks && s.tasks[t] == Retaining(c, topic)
    ensures var r := Resubscribed(s, c, topic);
            && c < |r.conns| && Has(r.conns[c], topic)
            && s.nextTask != t && s.nextTask in r.tasks && r.tasks[s.nextTask] == Retaining(c, topic)
            && !Has(Step(r, RetainSettled(t, false)).conns[c], topic)
  {
    RequestsAgain(s, c, topic);
    var s1 := Step(s, UnsubscribeMessage(c, topic));
    GrantsAgain(Step(s1, SubscribeMessage(c, topic)), c, topic, s1.nextTask, s.nextToken);
    LateRejectionDrops(Resubscribed(s, c, topic), c, topic, t);
  }

  lemma LateRejectionDrops(s: System, c: nat, topic: Topic, t: nat)
    requires t in s.tasks && s.tasks[t] == Retaining(c, topic) && c < |s.conns| && Has(s.conns[c], topic)
    ensures c < |Step(s, RetainSettled(t, false)).conns| && !Has(Step(s, RetainSettled(t, false)).conns[c], topic)
  {
  }

  // ---------- Who holds what, and why ----------

  // The holds of a connection that is not set up, or no longer, and what it waits for: nothing.
  ghost predicate Quiet(conn: Conn) {
    (conn.closed || !conn.initialized) ==> conn.jobs == [] && conn.chats == [] && conn.pending == map[]
  }

  ghost predicate AllQuiet(s: System) {
    forall c :: 0 <= c < |s.conns| ==> Quiet(s.conns[c])
  }

  predicate Room(conn: Conn, topic: Topic, limits: Limits) {
    (topic.Job? ==> |conn.jobs| < limits.maxJobs) && (topic.Chat? ==> |conn.chats| < limits.maxChats)
  }

  // The answer that may give a topic to a connection: the newest request for the topic was
  // allowed, the socket is still open and there is room.
  ghost predicate Grants(s: System, ev: Event, c: nat, topic: Topic) {
    && c < |s.conns|
    && ev.CheckSettled? && ev.allowed && Awaits(s, ev.task, c, topic)
    && !s.conns[c].closed && Room(s.conns[c], topic, s.limits)
  }

  // Task `t` checks the newest unanswered request of the connection for the topic.
  ghost predicate Awaits(s: System, t: nat, c: nat, topic: Topic) {
    && c < |s.conns| && t in s.tasks
    && s.tasks[t].Checking? && s.tasks[t].conn == c && s.tasks[t].topic == topic
    && ChannelOf(s.conns[c].user, topic) in s.conns[c].pending
    && s.conns[c].pending[ChannelOf(s.conns[c].user, topic)] == s.tasks[t].token
  }

  ghost predicate SetsUp(s: System, ev: Event, c: nat) {
    || (ev.Joined? && ev.task in s.tasks && s.tasks[ev.task] == Joining(c))
    || (ev.Loaded? && ev.task in s.tasks && s.tasks[ev.task] == Loading(c))
  }

  // The end of the connection: its socket closed or failed, or its setup did.
  ghost predicate Ends(s: System, ev: Event, c: nat) {
    || ev == Closed(c)
    || (SetsUp(s, ev, c) && !((ev.Joined? && ev.ok && ev.open) || (ev.Loaded? && ev.ok && ev.open)))
  }

  ghost predicate Takes(s: System, ev: Event, c: nat, topic: Topic) {
    || ev == UnsubscribeMessage(c, topic)
    || Ends(s, ev, c)
    || (ev.RetainSettled? && !ev.ok && ev.task in s.tasks && s.tasks[ev.task] == Retaining(c, topic))
  }

  // What one step does to one connection and one topic.
  ghost predicate Explained(s: System, ev: Event, c: nat, topic: Topic)
    requires c < |s.conns|
  {
    var r := Step(s, ev);
    && c < |r.conns|
    && r.conns[c].user == s.conns[c].user
    && (Has(r.conns[c], topic) <==> if Has(s.conns[c], topic) then !Takes(s, ev, c, topic) else Grants(s, ev, c, topic))
    && (r.conns[c].closed <==> s.conns[c].closed || Ends(s, ev, c))
    && (r.conns[c].initialized <==>
        s.conns[c].initialized || (ev.Loaded? && SetsUp(s, ev, c) && !Ends(s, ev, c) && !s.conns[c].closed))
  }

  // The whole fate of a hold: a topic comes only with an allowed check of its newest request, and
  // goes only with an unsubscribe, the end of the connection or a rejected retain.
  lemma HoldsChangeExactly(s: System, ev: Event, c: nat, topic: Topic)
    requires AllQuiet(s) && c < |s.conns|
    ensures Explained(s, ev, c, topic)
  {
    match ev
    case Joined(t, ok, open) => JoiningExplained(s, t, ok, open, c, topic);
    case Loaded(t, ok, open) => LoadingExplained(s, t, ok, open, c, topic);
    case SubscribeMessage(d, other) => if d < |s.conns| { RequestExplained(s, d, other, c, topic); }
    case UnsubscribeMessage(d, other) => if d < |s.conns| { UnsubscribeExplained(s, d, other, c, topic); }
    case CheckSettled(t, allowed) => CheckExplained(s, t, allowed, c, topic);
    case RetainSettled(t, ok) => RetainExplained(s, t, ok, c, topic);
    case Closed(d) => if d < |s.conns| { RemovalExplained(s, d, c, topic); }
    case _ => OthersExplained(s, ev, c, topic);
  }

  lemma OthersExplained(s: System, ev: Event, c: nat, topic: Topic)
    requires c < |s.conns| && (ev.Open? || ev.RollbackSettled? || ev.Subscriber? || ev.Shutdown?)
    ensures Explained(s, ev, c, topic)
  {
    var conn := Step(s, ev).conns[c];
    assert conn == s.conns[c].(checks := conn.checks);
  }

  lemma JoiningExplained(s: System, t: nat, ok: bool, open: bool, c: nat, topic: Topic)
    requires AllQuiet(s) && c < |s.conns|
    ensures Explained(s, Joined(t, ok, open), c, topic)
  {
    assert Quiet(s.conns[c]);
  }

  lemma LoadingExplained(s: System, t: nat, ok: bool, open: bool, c: nat, topic: Topic)
    requires AllQuiet(s) && c < |s.conns|
    ensures Explained(s, Loaded(t, ok, open), c, topic)
  {
    assert Quiet(s.conns[c]);
  }

  lemma RequestExplained(s: System, d: nat, other: Topic, c: nat, topic: Topic)
    requires c < |s.conns| && d < |s.conns|
    ensures Explained(s, SubscribeMessage(d, other), c, topic)
  {
  }

  lemma UnsubscribeExplained(s: System, d: nat, other: Topic, c: nat, topic: Topic)
    requires AllQuiet(s) && c < |s.conns| && d < |s.conns|
    ensures Explained(s, UnsubscribeMessage(d, other), c, topic)
  {
    assert Quiet(s.conns[c]);
  }

  lemma CheckExplained(s: System, t: nat, allowed: bool, c: nat, topic: Topic)
    requires AllQuiet(s) && c < |s.conns|
    ensures Explained(s, CheckSettled(t, allowed), c, topic)
  {
    if t in s.tasks && s.tasks[t].Checking? && s.tasks[t].conn < |s.conns| {
      if allowed {
        AllowedCheckExplained(s, t, c, topic);
      } else {
        RefusedCheckExplained(s, t, c, topic);
      }
    }
  }

  lemma RefusedCheckExplained(s: System, t: nat, c: nat, topic: Topic)
    requires c < |s.conns| && t in s.tasks && s.tasks[t].Checking? && s.tasks[t].conn < |s.conns|
    ensures Explained(s, CheckSettled(t, false), c, topic)
  {
    var conn := CheckStep(s, t, false).conns[c];
    assert conn == s.conns[c].(checks := conn.checks, pending := conn.pending);
  }

  lemma AllowedCheckExplained(s: System, t: nat, c: nat, topic: Topic)
    requires AllQuiet(s) && c < |s.conns| && t in s.tasks && s.tasks[t].Checking? && s.tasks[t].conn < |s.conns|
    ensures Explained(s, CheckSettled(t, true), c, topic)
  {
    assert Quiet(s.conns[c]);
  }

  lemma RetainExplained(s: System, t: nat, ok: bool, c: nat, topic: Topic)
    requires AllQuiet(s) && c < |s.conns|
    ensures Explained(s, RetainSettled(t, ok), c, topic)
  {
    assert Quiet(s.conns[c]);
  }

  lemma RemovalExplained(s: System, d: nat, c: nat, topic: Topic)
    requires AllQuiet(s) && c < |s.conns| && d < |s.conns|
    ensures Explained(s, Closed(d), c, topic)
  {
    assert Quiet(s.conns[c]);
  }

  // A refused ownership check gives nothing to anyone and sends nothing to the subscriber.
  lemma RefusedChecksAddNothing(s: System, t: nat)
    ensures var r := Step(s, CheckSettled(t, false));
            && r.redis == s.redis && |r.conns| == |s.conns|
            && forall c :: 0 <= c < |s.conns| ==> Held(r.conns[c]) == Held(s.conns[c])
  {
    var r := Step(s, CheckSettled(t, false));
    forall c | 0 <= c < |s.conns| ensures Held(r.conns[c]) == Held(s.conns[c]) {
      assert r.conns[c] == s.conns[c].(pending := r.conns[c].pending, checks := r.conns[c].checks);
    }
  }

  // A request begins exactly if the connection is set up and open, a slot is free, the topic is
  // well formed and not held, and there is room; it then is the newest one for its topic.
  lemma RequestsBeginExactly(s: System, c: nat, topic: Topic)
    requires Assigned(s) && c < |s.conns|
    ensures Awaits(Step(s, SubscribeMessage(c, topic)), s.nextTask, c, topic) <==>
            && s.conns[c].initialized && !s.conns[c].closed
            && s.conns[c].checks < s.limits.maxJobs + s.limits.maxChats
            && ValidTopic(topic) && !Has(s.conns[c], topic) && Room(s.conns[c], topic, s.limits)
  {
  }

  // ----- Where a hold comes from -----

  ghost predicate AskedAt(limits: Limits, evs: seq<Event>, i: nat, t: nat, c: nat, topic: Topic) {
    && i < |evs| && evs[i] == SubscribeMessage(c, topic) && Exec(Start(limits), evs[..i]).nextTask == t
    && ValidTopic(topic) && forall k :: i < k < |evs| ==> evs[k] != UnsubscribeMessage(c, topic)
  }

  ghost predicate GrantedAt(limits: Limits, evs: seq<Event>, i: nat, j: nat, c: nat, topic: Topic) {
    && i < j < |evs|
    && AskedAt(limits, evs, i, Exec(Start(limits), evs[..i]).nextTask, c, topic)
    && evs[j] == CheckSettled(Exec(Start(limits), evs[..i]).nextTask, true)
  }

  ghost predicate Accounted(limits: Limits, evs: seq<Event>, s: System) {
    && Assigned(s) && Ticketed(s) && AllQuiet(s)
    && (forall t, c, topic :: Awaits(s, t, c, topic) ==> exists i: nat :: AskedAt(limits, evs, i, t, c, topic))
    && (forall c, topic :: 0 <= c < |s.conns| && Has(s.conns[c], topic) ==>
          exists i: nat, j: nat :: GrantedAt(limits, evs, i, j, c, topic))
  }

  lemma {:induction false} ExecExtends(s: System, evs: seq<Event>, ev: Event)
    ensures Exec(s, evs + [ev]) == Step(Exec(s, evs), ev)
    decreases |evs|
  {
    if evs == [] {
      assert Exec(Step(s, ev), []) == Step(s, ev);
    } else {
      assert (evs + [ev])[0] == evs[0] && (evs + [ev])[1..] == evs[1..] + [ev];
      ExecExtends(Step(s, evs[0]), evs[1..], ev);
    }
  }

  lemma AskedStays(limits: Limits, evs: seq<Event>, ev: Event, i: nat, t: nat, c: nat, topic: Topic)
    requires AskedAt(limits, evs, i, t, c, topic) && ev != UnsubscribeMessage(c, topic)
    ensures AskedAt(limits, evs + [ev], i, t, c, topic)
  {
    assert (evs + [ev])[..i] == evs[..i];
  }

  lemma QuietStays(s: System, ev: Event)
    requires AllQuiet(s)
    ensures AllQuiet(Step(s, ev))
  {
    match ev
    case Joined(t, ok, open) => if Step(s, ev) != s { SetupStaysQuiet(s, t, ok, open); }
    case Loaded(t, ok, open) => if Step(s, ev) != s { SetupStaysQuiet(s, t, ok, open); }
    case CheckSettled(t, allowed) => if Step(s, ev) != s { CheckStaysQuiet(s, t, allowed); }
    case RetainSettled(t, ok) => if Step(s, ev) != s { RetainStaysQuiet(s, t, ok); }
    case _ =>
  }

  lemma SetupStaysQuiet(s: System, t: nat, ok: bool, open: bool)
    requires AllQuiet(s) && t in s.tasks && (s.tasks[t].Joining? || s.tasks[t].Loading?) && s.tasks[t].conn < |s.conns|
    ensures AllQuiet(SetupStep(s, t, ok, open))
  {
  }

  lemma CheckStaysQuiet(s: System, t: nat, allowed: bool)
    requires AllQuiet(s) && t in s.tasks && s.tasks[t].Checking? && s.tasks[t].conn < |s.conns|
    ensures AllQuiet(CheckStep(s, t, allowed))
  {
  }

  lemma RetainStaysQuiet(s: System, t: nat, ok: bool)
    requires AllQuiet(s) && t in s.tasks && s.tasks[t].Retaining? && s.tasks[t].conn < |s.conns|
    ensures AllQuiet(RetainSettledStep(s, t, ok))
  {
  }

  // A request that is the newest one was so before, or was made by this very message.
  lemma AwaitedBefore(s: System, ev: Event, t: nat, c: nat, topic: Topic)
    requires Ticketed(s) && AllQuiet(s) && Awaits(Step(s, ev), t, c, topic)
    ensures ev != UnsubscribeMessage(c, topic)
    ensures Awaits(s, t, c, topic) || (t == s.nextTask && ev == SubscribeMessage(c, topic) && ValidTopic(topic))
  {
    assert c < |s.conns| ==> Quiet(s.conns[c]);
    match ev
    case SubscribeMessage(d, other) => if d < |s.conns| { AwaitedBeforeARequest(s, d, other, t, c, topic); }
    case CheckSettled(u, allowed) =>
      if u in s.tasks && s.tasks[u].Checking? && s.tasks[u].conn < |s.conns| {
        AwaitedBeforeACheck(s, u, allowed, t, c, topic);
      }
    case RetainSettled(u, ok) =>
      if u in s.tasks && s.tasks[u].Retaining? && s.tasks[u].conn < |s.conns| {
        AwaitedBeforeASettledRetain(s, u, ok, t, c, topic);
      }
    case _ =>
  }

  lemma AwaitedBeforeARequest(s: System, d: nat, other: Topic, t: nat, c: nat, topic: Topic)
    requires Ticketed(s) && d < |s.conns| && Awaits(SubscribeStep(s, d, other), t, c, topic)
    ensures Awaits(s, t, c, topic) || (t == s.nextTask && d == c && other == topic && ValidTopic(topic))
  {
    ChannelsAreDistinct(s.conns[c].user, topic, other);
  }

  lemma AwaitedBeforeACheck(s: System, u: nat, allowed: bool, t: nat, c: nat, topic: Topic)
    requires u in s.tasks && s.tasks[u].Checking? && s.tasks[u].conn < |s.conns|
    requires Awaits(CheckStep(s, u, allowed), t, c, topic)
    ensures Awaits(s, t, c, topic)
  {
  }

  lemma AwaitedBeforeASettledRetain(s: System, u: nat, ok: bool, t: nat, c: nat, topic: Topic)
    requires u in s.tasks && s.tasks[u].Retaining? && s.tasks[u].conn < |s.conns|
    requires Awaits(RetainSettledStep(s, u, ok), t, c, topic)
    ensures Awaits(s, t, c, topic)
  {
  }

  lemma RequestsStayAccounted(limits: Limits, evs: seq<Event>, ev: Event, t: nat, c: nat, topic: Topic)
    requires Accounted(limits, evs, Exec(Start(limits), evs))
    requires Awaits(Step(Exec(Start(limits), evs), ev), t, c, topic)
    ensures exists i: nat :: AskedAt(limits, evs + [ev], i, t, c, topic)
  {
    var s := Exec(Start(limits), evs);
    AwaitedBefore(s, ev, t, c, topic);
    if Awaits(s, t, c, topic) {
      var i: nat :| AskedAt(limits, evs, i, t, c, topic);
      AskedStays(limits, evs, ev, i, t, c, topic);
    } else {
      assert (evs + [ev])[..|evs|] == evs;
      assert AskedAt(limits, evs + [ev], |evs|, t, c, topic);
    }
  }

  lemma GrantStays(limits: Limits, evs: seq<Event>, ev: Event, i: nat, j: nat, c: nat, topic: Topic)
    requires GrantedAt(limits, evs, i, j, c, topic) && ev != UnsubscribeMessage(c, topic)
    ensures GrantedAt(limits, evs + [ev], i, j, c, topic)
  {
    AskedStays(limits, evs, ev, i, Exec(Start(limits), evs[..i]).nextTask, c, topic);
    assert (evs + [ev])[..i] == evs[..i];
  }

  lemma GrantFollows(limits: Limits, evs: seq<Event>, i: nat, t: nat, c: nat, topic: Topic)
    requires AskedAt(limits, evs, i, t, c, topic)
    ensures GrantedAt(limits, evs + [CheckSettled(t, true)], i, |evs|, c, topic)
  {
    AskedStays(limits, evs, CheckSettled(t, true), i, t, c, topic);
    assert (evs + [CheckSettled(t, true)])[..i] == evs[..i];
  }

  lemma HoldsStayAccounted(limits: Limits, evs: seq<Event>, ev: Event, c: nat, topic: Topic)
    requires Accounted(limits, evs, Exec(Start(limits), evs))
    requires var r := Step(Exec(Start(limits), evs), ev); c < |r.conns| && Has(r.conns[c], topic)
    ensures exists i: nat, j: nat :: GrantedAt(limits, evs + [ev], i, j, c, topic)
  {
    var s := Exec(Start(limits), evs);
    HeldBefore(s, ev, c, topic);
    HoldsChangeExactly(s, ev, c, topic);
    if Has(s.conns[c], topic) {
      var i: nat, j: nat :| GrantedAt(limits, evs, i, j, c, topic);
      GrantStays(limits, evs, ev, i, j, c, topic);
    } else {
      var i: nat :| AskedAt(limits, evs, i, ev.task, c, topic);
      GrantFollows(limits, evs, i, ev.task, c, topic);
    }
  }

  lemma HeldBefore(s: System, ev: Event, c: nat, topic: Topic)
    requires c < |Step(s, ev).conns| && Has(Step(s, ev).conns[c], topic)
    ensures c < |s.conns|
  {
  }

  lemma {:induction false} RunsAreAccounted(limits: Limits, evs: seq<Event>)
    ensures Accounted(limits, evs, Exec(Start(limits), evs))
    decreases |evs|
  {
    if evs != [] {
      var before, ev := evs[..|evs| - 1], evs[|evs| - 1];
      assert evs == before + [ev];
      RunsAreAccounted(limits, before);
      var s := Exec(Start(limits), before);
      ExecExtends(Start(limits), before, ev);
      StepTickets(s, ev);
      QuietStays(s, ev);
      forall t, c, topic | Awaits(Step(s, ev), t, c, topic) ensures exists i: nat :: AskedAt(limits, evs, i, t, c, topic) {
        RequestsStayAccounted(limits, before, ev, t, c, topic);
      }
      forall c, topic | 0 <= c < |Step(s, ev).conns| && Has(Step(s, ev).conns[c], topic)
        ensures exists i: nat, j: nat :: GrantedAt(limits, evs, i, j, c, topic)
      {
        HoldsStayAccounted(limits, before, ev, c, topic);
      }
    }
  }

  // In every run, a connection holds a topic only if it asked for it with a well-formed message,
  // the ownership check of that very request came back allowed, and no unsubscribe followed the
  // request.
  lemma HoldsWereGranted(limits: Limits, evs: seq<Event>, c: nat, topic: Topic)
    requires var s := Exec(Start(limits), evs); c < |s.conns| && Has(s.conns[c], topic)
    ensures ValidTopic(topic)
    ensures exists i: nat, j: nat ::
              && i < j < |evs| && evs[i] == SubscribeMessage(c, topic)
              && evs[j] == CheckSettled(Exec(Start(limits), evs[..i]).nextTask, true)
              && UnsubscribeMessage(c, topic) !in evs[i..]
  {
    RunsAreAccounted(limits, evs);
    var i: nat, j: nat :| GrantedAt(limits, evs, i, j, c, topic);
    assert UnsubscribeMessage(c, topic) !in evs[i..];
  }

  // ---------- The objects themselves ----------

  class ClientConnection {
    const userId: string
    var subscribedJobs: seq<string>
    var subscribedChats: seq<string>
    var pendingSubscriptions: map<Channel, nat>
    var releaseUserChannel: bool
    var initialized: bool
    var closed: bool
    var subscriptionChecksInFlight: nat

    function View(): Conn
      reads this
    {
      Conn(userId, subscribedJobs, subscribedChats, pendingSubscriptions, releaseUserChannel, initialized, closed,
           subscriptionChecksInFlight)
    }

    constructor (userId: string)
      ensures View() == NewConn(userId)
    {
      this.userId := userId;
      subscribedJobs, subscribedChats, pendingSubscriptions := [], [], map[];
      releaseUserChannel, initialized, closed, subscriptionChecksInFlight := true, false, false, 0;
    }

    method Forget(topic: Topic)
      modifies this
      ensures View() == Drop(old(View()), topic)
    {
      match topic {
        case Job(id) => subscribedJobs := Without(subscribedJobs, id);
        case Chat(id) => subscribedChats := Without(subscribedChats, id);
      }
    }

    // `subscribeToJob` and `subscribeToChat` up to the ownership check.
    method Request(topic: Topic, token: nat, limits: Limits) returns (begun: bool)
      modifies this
      ensures (View(), begun) == Requested(old(View()), topic, token, limits)
    {
      if !initialized || closed || subscriptionChecksInFlight >= limits.maxJobs + limits.maxChats {
        return false;
      }
      if !ValidTopic(topic) || Has(View(), topic) || Full(View(), topic, limits) {
        return false;
      }
      pendingSubscriptions := pendingSubscriptions[ChannelOf(userId, topic) := token];
      subscriptionChecksInFlight := subscriptionChecksInFlight + 1;
      return true;
    }

    // The same functions from the settled ownership check up to the awaited retain.
    method FinishCheck(topic: Topic, token: nat, allowed: bool, limits: Limits, subscriber: R.SharedRedisSubscriber)
      returns (retained: bool)
      requires subscriber.Valid() && Sound(View(), subscriber.View())
      modifies this, subscriber
      ensures (View(), subscriber.View(), retained) == old(Checked(View(), subscriber.View(), topic, token, allowed, limits))
      ensures retained <==> && allowed && !old(closed) && !old(Has(View(), topic)) && Room(old(View()), topic, limits)
                            && ChannelOf(userId, topic) in old(pendingSubscriptions)
                            && old(pendingSubscriptions)[ChannelOf(userId, topic)] == token
      ensures if retained then Has(View(), topic) && subscriber.View() == R.Step(old(subscriber.View()), R.Retain(ChannelOf(userId, topic)))
              else Held(View()) == old(Held(View())) && subscriber.View() == old(subscriber.View())
      ensures Balanced(old(View()), old(subscriber.View()), View(), subscriber.View())
    {
      CheckedBalances(View(), subscriber.View(), topic, token, allowed, limits);
      var channel := ChannelOf(userId, topic);
      if channel !in pendingSubscriptions || pendingSubscriptions[channel] != token {
        return false;
      }
      pendingSubscriptions := pendingSubscriptions - {channel};
      if !allowed || closed || Has(View(), topic) || Full(View(), topic, limits) {
        return false;
      }
      match topic {
        case Job(id) => subscribedJobs := subscribedJobs + [id];
        case Chat(id) => subscribedChats := subscribedChats + [id];
      }
      var _ := subscriber.Retain(channel);
      return true;
    }

    method RollBack(topic: Topic, subscriber: R.SharedRedisSubscriber)
      requires subscriber.Valid() && Sound(View(), subscriber.View())
      modifies this, subscriber
      ensures (View(), subscriber.View()) == old(RolledBack(View(), subscriber.View(), topic))
      ensures Balanced(old(View()), old(subscriber.View()), View(), subscriber.View())
    {
      if Has(View(), topic) {
        DropBalances(View(), subscriber.View(), topic);
        Forget(topic);
        subscriber.Release(ChannelOf(userId, topic));
      }
    }

    method Unsubscribe(topic: Topic, subscriber: R.SharedRedisSubscriber)
      requires subscriber.Valid() && Sound(View(), subscriber.View())
      modifies this, subscriber
      ensures (View(), subscriber.View()) == old(Unsubscribed(View(), subscriber.View(), topic))
      ensures Balanced(old(View()), old(subscriber.View()), View(), subscriber.View())
    {
      UnsubscribedBalances(View(), subscriber.View(), topic);
      pendingSubscriptions := pendingSubscriptions - {ChannelOf(userId, topic)};
      if Has(View(), topic) {
        Forget(topic);
        subscriber.Release(ChannelOf(userId, topic));
      }
    }

    // `removeConnection`: close and error events both lead here, and only the first one counts.
    method Remove(subscriber: R.SharedRedisSubscriber)
      requires subscriber.Valid() && Sound(View(), subscriber.View())
      modifies this, subscriber
      ensures (View(), subscriber.View()) == old(Removed(View(), subscriber.View()))
      ensures Balanced(old(View()), old(subscriber.View()), View(), subscriber.View())
    {
      RemovedBalances(View(), subscriber.View());
      if !closed {
        var held := Held(View());
        closed := true;
        pendingSubscriptions := map[];
        subscribedJobs, subscribedChats, releaseUserChannel := [], [], false;
        ReleaseEach(held, subscriber);
      }
    }

    static method ReleaseEach(channels: seq<Channel>, subscriber: R.SharedRedisSubscriber)
      requires subscriber.Valid()
      modifies subscriber
      ensures subscriber.Valid() && subscriber.View() == ReleaseAll(old(subscriber.View()), channels)
    {
      for i := 0 to |channels|
        invariant subscriber.Valid()
        invariant ReleaseAll(subscriber.View(), channels[i..]) == ReleaseAll(old(subscriber.View()), channels)
      {
        assert channels[i..][0] == channels[i] && channels[i..][1..] == channels[i + 1..];
        subscriber.Release(channels[i]);
      }
    }
  }
}
