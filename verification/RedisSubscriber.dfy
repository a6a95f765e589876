/**
 * The refcounted Redis Pub/Sub multiplexer of the WebSocket sidecar.
 *
 * `retain` and `release` change reference counts at once and append an operation to a promise
 * chain; the chain runs one operation at a time, and an operation sends one Redis command at a
 * time.  The code between two awaits is one event here, so an event sequence is an interleaving.
 */
module RedisSubscriber {
  type Channel = string

  // An entry object.  Entries are compared by identity in the source, so they are numbered here.
  datatype Entry = Entry(channel: Channel, refCount: nat, subscribed: bool)

  datatype Operation = Reconcile(entry: nat) | Teardown

  // What the running operation awaits.  A command takes effect in Redis (`applied`) at some
  // moment between sending it and its reply.
  datatype Phase =
    | Idle
    | Connecting(entry: nat)
    | Commanding(entry: nat, target: bool, applied: bool)
    | Closing(batch: set<Channel>, applied: bool)
    | Quitting

  datatype State = State(
    entries: seq<Entry>,
    channels: map<Channel, nat>,
    queue: seq<Operation>,
    phase: Phase,
    connected: bool,
    closed: bool,
    redis: set<Channel>,     // what Redis itself has subscribed
    failed: set<Channel>,    // history: the latest command or connect for the channel was rejected
    issued: nat,             // history: commands sent by the running operation
    flips: nat               // history: desired-state changes of its entry while it runs
  )

  const Initial := State([], map[], [], Idle, false, false, {}, {}, 0, 0)

  datatype Event =
    | Retain(channel: Channel)
    | Release(channel: Channel)
    | Shutdown
    | Begin                  // the promise chain starts its next operation
    | Connected
    | ConnectFailed
    | Applied                // Redis executes the command in flight
    | Replied
    | Rejected               // the command in flight is rejected, applied or not

  // ---------- Observations ----------

  ghost predicate Current(s: State, e: nat) {
    e < |s.entries| && s.entries[e].channel in s.channels && s.channels[s.entries[e].channel] == e
  }

  predicate Wanted(s: State, e: nat)
    requires e < |s.entries|
  {
    !s.closed && s.entries[e].refCount > 0
  }

  function RefCount(s: State, c: Channel): nat {
    if c in s.channels && s.channels[c] < |s.entries| then s.entries[s.channels[c]].refCount else 0
  }

  predicate Desired(s: State, c: Channel) {
    !s.closed && RefCount(s, c) > 0
  }

  predicate Marked(s: State, c: Channel) {
    c in s.channels && s.channels[c] < |s.entries| && s.entries[s.channels[c]].subscribed
  }

  predicate Touches(s: State, e: nat) {
    (s.phase.Connecting? || s.phase.Commanding?) && s.phase.entry == e
  }

  // The channels of the one command in flight.
  function InFlight(s: State): set<Channel> {
    match s.phase
    case Commanding(e, _, _) => if e < |s.entries| then {s.entries[e].channel} else {}
    case Closing(batch, _) => batch
    case _ => {}
  }

  // A message is handed to the channel's handler only through this gate.
  predicate Delivers(s: State, c: Channel) {
    Marked(s, c) && RefCount(s, c) > 0
  }

  // ---------- Steps ----------

  function SetCount(s: State, e: nat, n: nat): State
    requires e < |s.entries|
  {
    var flipped := !s.closed && (s.entries[e].refCount > 0) != (n > 0);
    s.(entries := s.entries[e := s.entries[e].(refCount := n)],
       queue := s.queue + [Reconcile(e)],
       flips := if flipped && Touches(s, e) then s.flips + 1 else s.flips)
  }

  function RetainStep(s: State, c: Channel): State {
    if s.closed then s
    else if c in s.channels && s.channels[c] < |s.entries| then
      SetCount(s, s.channels[c], s.entries[s.channels[c]].refCount + 1)
    else
      s.(entries := s.entries + [Entry(c, 1, false)],
         channels := s.channels[c := |s.entries|],
         queue := s.queue + [Reconcile(|s.entries|)])
  }

  function ReleaseStep(s: State, c: Channel): State {
    if c in s.channels && s.channels[c] < |s.entries| then
      var n := s.entries[s.channels[c]].refCount;
      SetCount(s, s.channels[c], if n > 0 then n - 1 else 0)
    else s
  }

  function ZeroCounts(entries: seq<Entry>, channels: map<Channel, nat>): (r: seq<Entry>)
    ensures |r| == |entries|
  {
    seq(|entries|, i requires 0 <= i < |entries| =>
      if entries[i].channel in channels && channels[entries[i].channel] == i
      then entries[i].(refCount := 0) else entries[i])
  }

  function ShutdownStep(s: State): State {
    if s.closed then s
    else
      var flipped := (s.phase.Connecting? || s.phase.Commanding?) && s.phase.entry < |s.entries|
                     && s.entries[s.phase.entry].refCount > 0;
      s.(closed := true, entries := ZeroCounts(s.entries, s.channels), queue := s.queue + [Teardown],
         flips := if flipped then s.flips + 1 else s.flips)
  }

  // The loop test of `enqueueReconcile` up to the next await.
  function LoopTop(s: State, e: nat): State {
    if !(e < |s.entries| && s.entries[e].channel in s.channels && s.channels[s.entries[e].channel] == e) then
      s.(phase := Idle)
    else if Wanted(s, e) == s.entries[e].subscribed then
      if Wanted(s, e) then s.(phase := Idle)
      else s.(phase := Idle, channels := s.channels - {s.entries[e].channel})
    else if Wanted(s, e) && !s.connected then
      s.(phase := Connecting(e))
    else
      s.(phase := Commanding(e, Wanted(s, e), false), issued := s.issued + 1)
  }

  function SubscribedChannels(entries: seq<Entry>, channels: map<Channel, nat>): set<Channel> {
    set c | c in channels && channels[c] < |entries| && entries[channels[c]].subscribed
  }

  function BatchOf(s: State): set<Channel> {
    SubscribedChannels(s.entries, s.channels)
  }

  function BeginStep(s: State): State {
    if !s.phase.Idle? || s.queue == [] then s
    else
      var rest := s.(queue := s.queue[1..], issued := 0, flips := 0);
      match s.queue[0]
      case Reconcile(e) => LoopTop(rest, e)
      case Teardown =>
        if BatchOf(rest) != {} then rest.(phase := Closing(BatchOf(rest), false), issued := 1)
        else rest.(channels := map[], phase := Quitting)
  }

  function ConnectedStep(s: State): State {
    if s.phase.Connecting? then
      s.(connected := true, phase := Commanding(s.phase.entry, true, false), issued := s.issued + 1)
    else s
  }

  function AppliedStep(s: State): State {
    match s.phase
    case Commanding(e, target, false) =>
      if e < |s.entries| then
        s.(redis := if target then s.redis + {s.entries[e].channel} else s.redis - {s.entries[e].channel},
           phase := Commanding(e, target, true))
      else s
    case Closing(batch, false) => s.(redis := s.redis - batch, phase := Closing(batch, true))
    case _ => s
  }

  function RepliedStep(s: State): State {
    match s.phase
    case Commanding(e, target, true) =>
      if e < |s.entries| then
        LoopTop(s.(entries := s.entries[e := s.entries[e].(subscribed := target)],
                   failed := s.failed - {s.entries[e].channel}), e)
      else s
    case Closing(batch, true) => s.(channels := map[], phase := Quitting, failed := s.failed - batch)
    case Quitting => s.(phase := Idle, redis := {})
    case _ => s
  }

  function RejectedStep(s: State): State {
    match s.phase
    case Connecting(e) => s
    case Idle => s
    case Commanding(e, _, _) => s.(phase := Idle, failed := s.failed + InFlight(s))
    case Closing(batch, _) => s.(phase := Idle, failed := s.failed + s.channels.Keys)
    case Quitting => s.(phase := Idle)
  }

  function ConnectFailedStep(s: State): State {
    if s.phase.Connecting? && s.phase.entry < |s.entries| then
      s.(phase := Idle, failed := s.failed + {s.entries[s.phase.entry].channel})
    else s
  }

  function Step(s: State, ev: Event): State {
    match ev
    case Retain(c) => RetainStep(s, c)
    case Release(c) => ReleaseStep(s, c)
    case Shutdown => ShutdownStep(s)
    case Begin => BeginStep(s)
    case Connected => ConnectedStep(s)
    case ConnectFailed => ConnectFailedStep(s)
    case Applied => AppliedStep(s)
    case Replied => RepliedStep(s)
    case Rejected => RejectedStep(s)
  }

  function Exec(s: State, evs: seq<Event>): State
    decreases |evs|
  {
    if evs == [] then s else Step(Exec(s, evs[..|evs| - 1]), evs[|evs| - 1])
  }

  // ---------- Invariant ----------

  // Every mapped channel has its own entry, and the running phase names a real entry.
  ghost predicate Linked(s: State) {
    && (forall c :: c in s.channels ==> s.channels[c] < |s.entries| && s.entries[s.channels[c]].channel == c)
    && (s.phase.Connecting? || s.phase.Commanding? ==> Current(s, s.phase.entry))
    && (forall op :: op in s.queue && op.Reconcile? ==> op.entry < |s.entries|)
    && (Teardown in s.queue ==> s.closed)
  }

  // Redis agrees with the `subscribed` marks except where a command is in flight or was rejected.
  ghost predicate Mirrors(s: State) {
    && (forall c :: c !in s.failed && c !in InFlight(s) ==> (c in s.redis <==> Marked(s, c)))
    && (s.phase.Commanding? && s.phase.applied && s.phase.entry < |s.entries| ==>
          (s.entries[s.phase.entry].channel in s.redis <==> s.phase.target))
    && (s.phase.Closing? ==> s.closed && s.phase.batch == BatchOf(s) && (s.phase.applied ==> s.redis !! s.phase.batch))
    && (s.phase.Quitting? ==> s.closed && s.channels == map[])
  }

  ghost predicate TearingDown(s: State) {
    s.closed && (Teardown in s.queue || s.phase.Closing? || s.phase.Quitting?)
  }

  // An entry that is not as wanted has an operation coming, unless its command was rejected.
  ghost predicate Settling(s: State) {
    forall c :: c in s.channels && s.channels[c] < |s.entries| ==>
      var e := s.channels[c];
      || c in s.failed
      || (Wanted(s, e) && s.entries[e].subscribed)
      || Reconcile(e) in s.queue
      || Touches(s, e)
      || TearingDown(s)
  }

  // The running operation has sent at most one command more than its entry's desired state flipped.
  ghost predicate Economical(s: State) {
    match s.phase
    case Connecting(e) => e < |s.entries| ==> s.issued + 1 <= s.flips + (if Wanted(s, e) then 1 else 0)
    case Commanding(e, target, _) => e < |s.entries| ==> s.issued <= s.flips + (if Wanted(s, e) == target then 1 else 0)
    case _ => s.issued <= s.flips + 1
  }

  ghost predicate Inv(s: State) {
    Linked(s) && Mirrors(s) && Settling(s) && Economical(s)
  }

  lemma LoopTopKeeps(s: State, e: nat)
    requires e < |s.entries|
    requires Linked(s.(phase := Idle)) && Mirrors(s.(phase := Idle))
    requires !s.phase.Closing? && !s.phase.Quitting?
    requires forall c :: c in s.channels && s.channels[c] != e ==>
               c in s.failed || (Wanted(s, s.channels[c]) && s.entries[s.channels[c]].subscribed)
               || Reconcile(s.channels[c]) in s.queue || (s.closed && Teardown in s.queue)
    requires s.issued <= s.flips + (if Wanted(s, e) == s.entries[e].subscribed then 1 else 0)
    ensures Inv(LoopTop(s, e))
  {
    var r := LoopTop(s, e);
    assert Linked(r);
    assert Mirrors(r);
    assert Settling(r);
    assert Economical(r);
  }

  lemma SetCountKeeps(s: State, e: nat, n: nat)
    requires Inv(s) && Current(s, e)
    ensures Inv(SetCount(s, e, n))
  {
    var r := SetCount(s, e, n);
    assert Linked(r);
    assert BatchOf(r) == BatchOf(s);
    assert Mirrors(r);
    assert Reconcile(e) in r.queue;
    assert Settling(r);
  }

  lemma NewEntryKeeps(s: State, c: Channel)
    requires Inv(s) && !s.closed && c !in s.channels
    ensures Inv(RetainStep(s, c))
  {
    var r := RetainStep(s, c);
    assert Linked(r);
    assert Mirrors(r);
    assert Reconcile(|s.entries|) in r.queue;
    assert Settling(r);
  }

  lemma RetainKeeps(s: State, c: Channel)
    requires Inv(s)
    ensures Inv(RetainStep(s, c))
  {
    if !s.closed && c in s.channels {
      SetCountKeeps(s, s.channels[c], s.entries[s.channels[c]].refCount + 1);
    } else if !s.closed {
      NewEntryKeeps(s, c);
    }
  }

  lemma ReleaseKeeps(s: State, c: Channel)
    requires Inv(s)
    ensures Inv(ReleaseStep(s, c))
  {
    if c in s.channels {
      var n := s.entries[s.channels[c]].refCount;
      SetCountKeeps(s, s.channels[c], if n > 0 then n - 1 else 0);
    }
  }

  lemma ShutdownKeeps(s: State)
    requires Inv(s)
    ensures Inv(ShutdownStep(s))
  {
  }

  lemma BeginKeeps(s: State)
    requires Inv(s)
    ensures Inv(BeginStep(s))
  {
    if s.phase.Idle? && s.queue != [] && s.queue[0].Reconcile? {
      LoopTopKeeps(s.(queue := s.queue[1..], issued := 0, flips := 0), s.queue[0].entry);
    }
  }

  lemma ReplyKeeps(s: State)
    requires Inv(s)
    ensures Inv(RepliedStep(s))
  {
    if s.phase.Commanding? && s.phase.applied {
      var e := s.phase.entry;
      LoopTopKeeps(s.(entries := s.entries[e := s.entries[e].(subscribed := s.phase.target)],
                      failed := s.failed - {s.entries[e].channel}), e);
    }
  }

  lemma ConnectionKeeps(s: State)
    requires Inv(s)
    ensures Inv(ConnectedStep(s)) && Inv(ConnectFailedStep(s))
  {
  }

  lemma AppliedKeeps(s: State)
    requires Inv(s)
    ensures Inv(AppliedStep(s))
  {
  }

  lemma RejectedKeeps(s: State)
    requires Inv(s)
    ensures Inv(RejectedStep(s))
  {
  }

  lemma StepKeeps(s: State, ev: Event)
    requires Inv(s)
    ensures Inv(Step(s, ev))
  {
    match ev
    case Retain(c) => RetainKeeps(s, c);
    case Release(c) => ReleaseKeeps(s, c);
    case Shutdown => ShutdownKeeps(s);
    case Begin => BeginKeeps(s);
    case Connected => ConnectionKeeps(s);
    case ConnectFailed => ConnectionKeeps(s);
    case Applied => AppliedKeeps(s);
    case Replied => ReplyKeeps(s);
    case Rejected => RejectedKeeps(s);
  }

  lemma {:induction false} ExecKeeps(evs: seq<Event>)
    ensures Inv(Exec(Initial, evs))
    decreases |evs|
  {
    if evs != [] {
      ExecKeeps(evs[..|evs| - 1]);
      StepKeeps(Exec(Initial, evs[..|evs| - 1]), evs[|evs| - 1]);
    }
  }

  // ---------- What the multiplexer promises ----------

  // Once the operation queue has drained, Redis is subscribed to exactly the desired channels.
  // Only a channel whose latest command was rejected can differ.
  lemma DrainedState(s: State, c: Channel)
    requires Inv(s) && s.phase.Idle? && s.queue == [] && c !in s.failed
    ensures c in s.redis <==> Desired(s, c)
  {
  }

  lemma {:induction false} DrainedMeansConverged(evs: seq<Event>, c: Channel)
    requires Exec(Initial, evs).phase.Idle? && Exec(Initial, evs).queue == []
    requires c !in Exec(Initial, evs).failed
    ensures c in Exec(Initial, evs).redis <==> Desired(Exec(Initial, evs), c)
  {
    ExecKeeps(evs);
  }

  ghost predicate NothingRejected(evs: seq<Event>) {
    Rejected !in evs && ConnectFailed !in evs
  }

  lemma FailuresComeFromRejections(s: State, ev: Event)
    requires !ev.Rejected? && !ev.ConnectFailed?
    ensures Step(s, ev).failed <= s.failed
  {
  }

  lemma {:induction false} NothingRejectedNothingFailed(evs: seq<Event>)
    requires NothingRejected(evs)
    ensures Exec(Initial, evs).failed == {}
    decreases |evs|
  {
    if evs != [] {
      NothingRejectedNothingFailed(evs[..|evs| - 1]);
      FailuresComeFromRejections(Exec(Initial, evs[..|evs| - 1]), evs[|evs| - 1]);
    }
  }

  lemma {:induction false} DrainedWithoutRejection(evs: seq<Event>)
    requires NothingRejected(evs)
    requires Exec(Initial, evs).phase.Idle? && Exec(Initial, evs).queue == []
    ensures Exec(Initial, evs).redis == set c | c in Exec(Initial, evs).channels && Desired(Exec(Initial, evs), c)
  {
    var s := Exec(Initial, evs);
    ExecKeeps(evs);
    NothingRejectedNothingFailed(evs);
    forall c ensures c in s.redis <==> Desired(s, c) {
      DrainedMeansConverged(evs, c);
    }
  }

  // At every moment of every run Redis differs from the `subscribed` marks in at most the channels of
  // the one command in flight and those whose latest command was rejected, and the running operation
  // has sent at most one command more than the desired state of its entry flipped meanwhile.
  lemma {:induction false} DifferenceIsInFlight(evs: seq<Event>)
    ensures var s := Exec(Initial, evs);
            && (forall c :: (c in s.redis) != Marked(s, c) ==> c in InFlight(s) || c in s.failed)
            && (NothingRejected(evs) ==> forall c :: (c in s.redis) != Marked(s, c) ==> c in InFlight(s))
            && s.issued <= s.flips + 1
  {
    ExecKeeps(evs);
    if NothingRejected(evs) {
      NothingRejectedNothingFailed(evs);
    }
  }

  // The promise cannot be extended to a rejected command that Redis executed all the same: here the
  // subscribe is executed, its reply is lost, the channel is released, and the entry is dropped
  // without an unsubscribe, so Redis keeps a channel that nobody wants.
  lemma LostReplyLeaks(c: Channel)
    ensures var s := Exec(Initial, [Retain(c), Begin, Connected, Applied, Rejected, Release(c), Begin]);
            s.phase.Idle? && s.queue == [] && !Desired(s, c) && c !in s.channels && c in s.redis
  {
    var s1 := Step(Initial, Retain(c));
    var s2 := Step(s1, Begin);
    var s3 := Step(s2, Connected);
    var s4 := Step(s3, Applied);
    var s5 := Step(s4, Rejected);
    var s6 := Step(s5, Release(c));
    var s7 := Step(s6, Begin);
    var evs := [Retain(c), Begin, Connected, Applied, Rejected, Release(c), Begin];
    assert evs[..6] == [Retain(c), Begin, Connected, Applied, Rejected, Release(c)];
    assert evs[..6][..5] == [Retain(c), Begin, Connected, Applied, Rejected];
    assert evs[..6][..5][..4] == [Retain(c), Begin, Connected, Applied];
    assert evs[..6][..5][..4][..3] == [Retain(c), Begin, Connected];
    assert evs[..6][..5][..4][..3][..2] == [Retain(c), Begin];
    assert evs[..6][..5][..4][..3][..2][..1] == [Retain(c)];
    assert evs[..6][..5][..4][..3][..2][..1][..0] == [];
    assert Exec(Initial, []) == Initial;
    assert Exec(Initial, [Retain(c)]) == s1;
    assert Exec(Initial, [Retain(c), Begin]) == s2;
    assert Exec(Initial, [Retain(c), Begin, Connected]) == s3;
    assert Exec(Initial, [Retain(c), Begin, Connected, Applied]) == s4;
    assert Exec(Initial, [Retain(c), Begin, Connected, Applied, Rejected]) == s5;
    assert Exec(Initial, [Retain(c), Begin, Connected, Applied, Rejected, Release(c)]) == s6;
  }

  // Two states that differ at most in what Redis has subscribed, which no caller sees.
  ghost predicate Twins(a: State, b: State) { a.(redis := {}) == b.(redis := {}) }

  lemma TwinsCount(a: State, b: State, c: Channel)
    requires Twins(a, b)
    ensures Twins(RetainStep(a, c), RetainStep(b, c)) && Twins(ReleaseStep(a, c), ReleaseStep(b, c))
    ensures RetainStep(a, c).redis == a.redis && ReleaseStep(a, c).redis == a.redis
  {
  }

  lemma TwinsClose(a: State, b: State)
    requires Twins(a, b)
    ensures Twins(ShutdownStep(a), ShutdownStep(b))
    ensures Twins(AppliedStep(a), AppliedStep(b)) && Twins(RejectedStep(a), RejectedStep(b))
    ensures Twins(ConnectedStep(a), ConnectedStep(b)) && Twins(ConnectFailedStep(a), ConnectFailedStep(b))
  {
  }

  lemma TwinsStep(a: State, b: State, ev: Event)
    requires Twins(a, b)
    ensures Twins(Step(a, ev), Step(b, ev))
  {
    match ev
    case Retain(c) => TwinsCount(a, b, c);
    case Release(c) => TwinsCount(a, b, c);
    case Begin => TwinsBegin(a, b);
    case Replied => TwinsReplied(a, b);
    case _ => TwinsClose(a, b);
  }

  lemma TwinsLoopTop(a: State, b: State, e: nat)
    requires Twins(a, b)
    ensures Twins(LoopTop(a, e), LoopTop(b, e)) && LoopTop(a, e).redis == a.redis
  {
  }

  lemma TwinsBegin(a: State, b: State)
    requires Twins(a, b)
    ensures Twins(BeginStep(a), BeginStep(b)) && BeginStep(a).redis == a.redis
  {
    if a.phase.Idle? && a.queue != [] && a.queue[0].Reconcile? {
      TwinsLoopTop(a.(queue := a.queue[1..], issued := 0, flips := 0), b.(queue := b.queue[1..], issued := 0, flips := 0),
                   a.queue[0].entry);
    }
  }

  lemma TwinsReplied(a: State, b: State)
    requires Twins(a, b)
    ensures Twins(RepliedStep(a), RepliedStep(b)) && (!a.phase.Quitting? ==> RepliedStep(a).redis == a.redis)
  {
    if a.phase.Commanding? && a.phase.applied && a.phase.entry < |a.entries| {
      var e, target := a.phase.entry, a.phase.target;
      TwinsLoopTop(a.(entries := a.entries[e := a.entries[e].(subscribed := target)], failed := a.failed - {a.entries[e].channel}),
                   b.(entries := b.entries[e := b.entries[e].(subscribed := target)], failed := b.failed - {b.entries[e].channel}), e);
    }
  }

  // Redis changes a channel only by a command in flight for it, or when the connection is closed.
  lemma RedisStays(s: State, ev: Event, c: Channel)
    requires c !in InFlight(s) && !s.phase.Quitting?
    ensures c in Step(s, ev).redis <==> c in s.redis
  {
    match ev
    case Retain(d) => TwinsCount(s, s, d);
    case Release(d) => TwinsCount(s, s, d);
    case Begin => TwinsBegin(s, s);
    case Replied => TwinsReplied(s, s);
    case _ =>
  }

  // No later command touches the channel, and the connection stays open.
  ghost predicate LeftAlone(s: State, after: seq<Event>, c: Channel) {
    forall n :: 0 <= n < |after| ==> c !in InFlight(Exec(s, after[..n])) && !Exec(s, after[..n]).phase.Quitting?
  }

  lemma {:induction false} TwinsRun(a: State, b: State, after: seq<Event>)
    requires Twins(a, b)
    ensures Twins(Exec(a, after), Exec(b, after))
    decreases |after|
  {
    if after != [] {
      var n := |after| - 1;
      TwinsRun(a, b, after[..n]);
      TwinsStep(Exec(a, after[..n]), Exec(b, after[..n]), after[n]);
    }
  }

  lemma TwinsLeaveAlone(a: State, b: State, after: seq<Event>, c: Channel)
    requires Twins(a, b) && LeftAlone(a, after, c)
    ensures LeftAlone(b, after, c)
  {
    forall n | 0 <= n < |after|
      ensures c !in InFlight(Exec(b, after[..n])) && !Exec(b, after[..n]).phase.Quitting? {
      TwinsRun(a, b, after[..n]);
    }
  }

  lemma {:induction false} RedisStaysThroughout(s: State, after: seq<Event>, c: Channel)
    requires LeftAlone(s, after, c)
    ensures c in Exec(s, after).redis <==> c in s.redis
    decreases |after|
  {
    if after != [] {
      var n := |after| - 1;
      assert forall k :: 0 <= k < n ==> after[..n][..k] == after[..k];
      RedisStaysThroughout(s, after[..n], c);
      RedisStays(Exec(s, after[..n]), after[n], c);
    }
  }

  // Nor can the hypothesis be weakened by anything a caller could know.  From every reachable state in
  // which a command awaits its reply, its rejection leads to two runs in which all else is the same,
  // and as long as no later command for the channel is sent, Redis has the channel in exactly one:
  // so at every drained state the promise holds in one of them and fails in the other.
  lemma {:induction false} RejectionsHideTheTruth(evs: seq<Event>, after: seq<Event>, e: nat, target: bool)
    requires Exec(Initial, evs).phase == Commanding(e, target, false)
    requires e < |Exec(Initial, evs).entries| && Exec(Initial, evs).entries[e].channel !in Exec(Initial, evs).failed
    ensures var s := Exec(Initial, evs);
            var c := s.entries[e].channel;
            var lost, executed := Exec(Step(s, Rejected), after), Exec(Step(Step(s, Applied), Rejected), after);
            && Twins(lost, executed)
            && (LeftAlone(Step(s, Rejected), after, c) ==>
                  && (c in lost.redis <==> !target) && (c in executed.redis <==> target)
                  && ((c in lost.redis <==> Desired(lost, c)) <==> !(c in executed.redis <==> Desired(executed, c))))
  {
    var s := Exec(Initial, evs);
    var c := s.entries[e].channel;
    var a, b := Step(s, Rejected), Step(Step(s, Applied), Rejected);
    ExecKeeps(evs);
    ExecCrosses(evs);
    assert Twins(a, b);
    TwinsRun(a, b, after);
    if LeftAlone(a, after, c) {
      TwinsLeaveAlone(a, b, after, c);
      RedisStaysThroughout(a, after, c);
      RedisStaysThroughout(b, after, c);
    }
  }

  // A command is only sent for an entry that is not yet as it asks.
  ghost predicate Crossing(s: State) {
    && (s.phase.Connecting? && s.phase.entry < |s.entries| ==> !s.entries[s.phase.entry].subscribed)
    && (s.phase.Commanding? && s.phase.entry < |s.entries| ==>
          var entry := s.entries[s.phase.entry];
          && entry.subscribed == !s.phase.target
          && (!s.phase.applied && entry.channel !in s.failed ==> (entry.channel in s.redis <==> !s.phase.target)))
  }

  lemma CrossingLoopTop(s: State, e: nat)
    requires Linked(s) && (s.phase.Idle? || Touches(s, e))
    requires Current(s, e) && s.entries[e].channel !in s.failed ==> (s.entries[e].channel in s.redis <==> s.entries[e].subscribed)
    ensures Crossing(LoopTop(s, e))
  {
  }

  lemma CrossingBegin(s: State)
    requires Inv(s) && Crossing(s)
    ensures Crossing(BeginStep(s))
  {
    if s.phase.Idle? && s.queue != [] && s.queue[0].Reconcile? {
      CrossingLoopTop(s.(queue := s.queue[1..], issued := 0, flips := 0), s.queue[0].entry);
    }
  }

  lemma CrossingReplied(s: State)
    requires Inv(s) && Crossing(s)
    ensures Crossing(RepliedStep(s))
  {
    if s.phase.Commanding? && s.phase.applied && s.phase.entry < |s.entries| {
      var e, target := s.phase.entry, s.phase.target;
      var c := s.entries[e].channel;
      var r := s.(entries := s.entries[e := s.entries[e].(subscribed := target)], failed := s.failed - {c});
      assert Linked(r) && Touches(r, e);
      CrossingLoopTop(r, e);
    }
  }

  lemma CrossingCounts(s: State, ev: Event)
    requires Inv(s) && Crossing(s) && (ev.Retain? || ev.Release? || ev.Shutdown?)
    ensures Crossing(Step(s, ev))
  {
  }

  lemma CrossingStep(s: State, ev: Event)
    requires Inv(s) && Crossing(s)
    ensures Crossing(Step(s, ev))
  {
    match ev
    case Retain(_) => CrossingCounts(s, ev);
    case Release(_) => CrossingCounts(s, ev);
    case Shutdown => CrossingCounts(s, ev);
    case Begin => CrossingBegin(s);
    case Replied => CrossingReplied(s);
    case _ =>
  }

  lemma {:induction false} ExecCrosses(evs: seq<Event>)
    ensures Crossing(Exec(Initial, evs))
    decreases |evs|
  {
    if evs != [] {
      ExecKeeps(evs[..|evs| - 1]);
      ExecCrosses(evs[..|evs| - 1]);
      CrossingStep(Exec(Initial, evs[..|evs| - 1]), evs[|evs| - 1]);
    }
  }

  // ---------- Reference counts ----------

  lemma RetainCounts(s: State, d: Channel, c: Channel)
    requires Linked(s) && !s.closed
    ensures !RetainStep(s, d).closed && RefCount(RetainStep(s, d), c) == RefCount(s, c) + if c == d then 1 else 0
  {
  }

  lemma ReleaseCounts(s: State, d: Channel, c: Channel)
    requires Linked(s) && !s.closed
    ensures !ReleaseStep(s, d).closed
    ensures RefCount(ReleaseStep(s, d), c) == RefCount(s, c) - if c == d && RefCount(s, c) > 0 then 1 else 0
  {
  }

  // The loop drops an entry only when it has no reference.
  lemma LoopTopCounts(s: State, e: nat, c: Channel)
    requires !s.closed
    ensures !LoopTop(s, e).closed && RefCount(LoopTop(s, e), c) == RefCount(s, c)
  {
  }

  lemma ReplyCounts(s: State, c: Channel)
    requires Inv(s) && !s.closed
    ensures !RepliedStep(s).closed && RefCount(RepliedStep(s), c) == RefCount(s, c)
  {
    if s.phase.Commanding? && s.phase.applied {
      var e, target := s.phase.entry, s.phase.target;
      var r := s.(entries := s.entries[e := s.entries[e].(subscribed := target)], failed := s.failed - {s.entries[e].channel});
      LoopTopCounts(r, e, c);
    }
  }

  lemma BeginCounts(s: State, c: Channel)
    requires Inv(s) && !s.closed
    ensures !BeginStep(s).closed && RefCount(BeginStep(s), c) == RefCount(s, c)
  {
    if s.phase.Idle? && s.queue != [] {
      assert s.queue[0] in s.queue;
      if s.queue[0].Reconcile? {
        LoopTopCounts(s.(queue := s.queue[1..], issued := 0, flips := 0), s.queue[0].entry, c);
      }
    }
  }

  // Before shutdown, a retain adds one reference, a release takes one unless there is none, and no
  // other event changes any count.
  lemma CountsChangeOnlyByHolders(s: State, ev: Event, c: Channel)
    requires Inv(s) && !s.closed && !ev.Shutdown?
    ensures !Step(s, ev).closed
    ensures RefCount(Step(s, ev), c) ==
            if ev == Retain(c) then RefCount(s, c) + 1
            else if ev == Release(c) && RefCount(s, c) > 0 then RefCount(s, c) - 1
            else RefCount(s, c)
  {
    match ev
    case Retain(d) => RetainCounts(s, d, c);
    case Release(d) => ReleaseCounts(s, d, c);
    case Begin => BeginCounts(s, c);
    case Replied => ReplyCounts(s, c);
    case _ =>
  }

  /** A shutdown takes every reference, and after it none is taken any more. */
  lemma ShutdownTakesEverything(s: State, c: Channel, d: Channel)
    ensures Step(s, Shutdown).closed && (!s.closed && Linked(s) ==> RefCount(Step(s, Shutdown), c) == 0)
    ensures s.closed ==> Step(s, Shutdown) == s && RefCount(Step(s, Retain(d)), c) == RefCount(s, c)
  {
  }

  // ---------- The promise chain drains ----------

  // How many replies the running operation still needs at most, if nobody retains or releases.
  function Remaining(s: State): nat {
    match s.phase
    case Idle => 0
    case Connecting(e) => if e < |s.entries| && Wanted(s, e) then 3 else 9
    case Commanding(e, target, applied) =>
      (if e < |s.entries| && Wanted(s, e) == target then 0 else 6) + if applied then 1 else 2
    case Closing(_, applied) => if applied then 3 else 4
    case Quitting => 2
  }

  function Rank(s: State): nat { 10 * |s.queue| + Remaining(s) }

  predicate Drained(s: State) { s.phase.Idle? && s.queue == [] }

  // What moves the chain on: its next operation starts, or Redis does what it was asked.
  function NextReply(s: State): Event {
    match s.phase
    case Idle => Begin
    case Connecting(_) => Connected
    case Commanding(_, _, applied) => if applied then Replied else Applied
    case Closing(_, applied) => if applied then Replied else Applied
    case Quitting => Replied
  }

  lemma RepliesMoveOn(s: State)
    requires Inv(s) && !Drained(s)
    ensures Rank(Step(s, NextReply(s))) < Rank(s)
  {
    match s.phase
    case Idle => BeginningMovesOn(s);
    case Commanding(e, target, true) => CommandsMoveOn(s, e);
    case _ =>
  }

  lemma BeginningMovesOn(s: State)
    requires Inv(s) && s.phase.Idle? && s.queue != []
    ensures Rank(BeginStep(s)) < Rank(s)
  {
    var rest := s.(queue := s.queue[1..], issued := 0, flips := 0);
    if s.queue[0].Reconcile? {
      assert s.queue[0] in s.queue;
      LoopTopIsShort(rest, s.queue[0].entry);
    }
  }

  lemma LoopTopIsShort(s: State, e: nat)
    requires e < |s.entries|
    ensures LoopTop(s, e).queue == s.queue && Remaining(LoopTop(s, e)) <= 3
  {
  }

  lemma CommandsMoveOn(s: State, e: nat)
    requires Inv(s) && s.phase.Commanding? && s.phase.entry == e && s.phase.applied
    ensures Rank(RepliedStep(s)) < Rank(s)
  {
    var target := s.phase.target;
    var marked := s.(entries := s.entries[e := s.entries[e].(subscribed := target)], failed := s.failed - {s.entries[e].channel});
    LoopTopIsShort(marked, e);
    assert Wanted(marked, e) == Wanted(s, e);
    assert Wanted(s, e) == target ==> LoopTop(marked, e).phase.Idle?;
  }

  function Prepend(ev: Event, evs: seq<Event>): seq<Event> { [ev] + evs }

  lemma {:induction false} ExecPrepends(s: State, ev: Event, evs: seq<Event>)
    ensures Exec(s, Prepend(ev, evs)) == Exec(Step(s, ev), evs)
    decreases |evs|
  {
    var all := Prepend(ev, evs);
    if evs == [] {
      assert all[..|all| - 1] == [];
    } else {
      assert all[..|all| - 1] == Prepend(ev, evs[..|evs| - 1]);
      ExecPrepends(s, ev, evs[..|evs| - 1]);
    }
  }

  /**
   * From every state the chain drains by itself, without a rejection and within ten replies for each
   * operation; and then Redis is subscribed where some reference is left, unless an earlier command
   * for the channel was rejected and none came after it.
   */
  lemma {:induction false} TheChainDrains(s: State) returns (evs: seq<Event>)
    requires Inv(s)
    ensures forall ev :: ev in evs ==> ev.Begin? || ev.Connected? || ev.Applied? || ev.Replied?
    ensures |evs| <= Rank(s)
    ensures var r := Exec(s, evs); Inv(r) && Drained(r) && (forall c :: c !in r.failed ==> (c in r.redis <==> Desired(r, c)))
    decreases Rank(s)
  {
    if Drained(s) {
      evs := [];
      forall c | c !in s.failed ensures c in s.redis <==> Desired(s, c) {
        DrainedState(s, c);
      }
    } else {
      RepliesMoveOn(s);
      StepKeeps(s, NextReply(s));
      var rest := TheChainDrains(Step(s, NextReply(s)));
      evs := Prepend(NextReply(s), rest);
      ExecPrepends(s, NextReply(s), rest);
    }
  }

  // ---------- The object itself ----------

  // Each method is the code the source runs without awaiting; `phase` is where it awaits.
  class SharedRedisSubscriber {
    var entries: seq<Entry>
    var channels: map<Channel, nat>
    var operationQueue: seq<Operation>
    var phase: Phase
    var connected: bool
    var closed: bool
    ghost var redis: set<Channel>
    ghost var failed: set<Channel>
    ghost var issued: nat
    ghost var flips: nat

    ghost function View(): State
      reads this
    {
      State(entries, channels, operationQueue, phase, connected, closed, redis, failed, issued, flips)
    }

    ghost predicate Valid()
      reads this
    {
      Inv(View())
    }

    constructor ()
      ensures View() == Initial && Valid()
    {
      entries, channels, operationQueue, phase := [], map[], [], Idle;
      connected, closed := false, false;
      redis, failed, issued, flips := {}, {}, 0, 0;
    }

    method SetRefCount(e: nat, n: nat)
      requires Valid() && Current(View(), e)
      modifies this
      ensures View() == SetCount(old(View()), e, n)
    {
      if !closed && (entries[e].refCount > 0) != (n > 0) && Touches(View(), e) {
        flips := flips + 1;
      }
      entries := entries[e := entries[e].(refCount := n)];
      operationQueue := operationQueue + [Reconcile(e)];
    }

    method Retain(channel: Channel) returns (accepted: bool)
      requires Valid()
      modifies this
      ensures accepted == !old(closed)
      ensures View() == RetainStep(old(View()), channel) && Valid()
      ensures accepted ==> RefCount(View(), channel) == old(RefCount(View(), channel)) + 1
    {
      ghost var before := View();
      if closed {
        return false;
      }
      RetainKeeps(before, channel);
      CountsChangeOnlyByHolders(before, Event.Retain(channel), channel);
      if channel in channels {
        SetRefCount(channels[channel], entries[channels[channel]].refCount + 1);
      } else {
        channels := channels[channel := |entries|];
        operationQueue := operationQueue + [Reconcile(|entries|)];
        entries := entries + [Entry(channel, 1, false)];
      }
      return true;
    }

    method Release(channel: Channel)
      requires Valid()
      modifies this
      ensures View() == ReleaseStep(old(View()), channel) && Valid()
    {
      ReleaseKeeps(View(), channel);
      if channel in channels {
        var e := channels[channel];
        var n := entries[e].refCount;
        SetRefCount(e, if n > 0 then n - 1 else 0);
      }
    }

    method Shutdown()
      requires Valid()
      modifies this
      ensures View() == ShutdownStep(old(View())) && Valid() && closed
    {
      ShutdownKeeps(View());
      if !closed {
        if (phase.Connecting? || phase.Commanding?) && entries[phase.entry].refCount > 0 {
          flips := flips + 1;
        }
        closed := true;
        entries := ZeroCounts(entries, channels);
        operationQueue := operationQueue + [Teardown];
      }
    }

    // The loop of `enqueueReconcile`: it either finishes or sends exactly one command and awaits.
    method ContinueReconcile(e: nat)
      requires e < |entries|
      modifies this
      ensures View() == LoopTop(old(View()), e)
    {
      var channel := entries[e].channel;
      if channel !in channels || channels[channel] != e {
        phase := Idle;
        return;
      }
      var shouldSubscribe := !closed && entries[e].refCount > 0;
      if shouldSubscribe == entries[e].subscribed {
        if !shouldSubscribe {
          channels := channels - {channel};
        }
        phase := Idle;
      } else if shouldSubscribe && !connected {
        phase := Connecting(e);
      } else {
        phase := Commanding(e, shouldSubscribe, false);
        issued := issued + 1;
      }
    }

    method StartNextOperation()
      requires Valid()
      modifies this
      ensures View() == BeginStep(old(View())) && Valid()
    {
      BeginKeeps(View());
      if phase.Idle? && operationQueue != [] {
        var operation := operationQueue[0];
        operationQueue := operationQueue[1..];
        issued, flips := 0, 0;
        match operation {
          case Reconcile(e) => ContinueReconcile(e);
          case Teardown =>
            var subscribed := SubscribedChannels(entries, channels);
            if subscribed != {} {
              phase := Closing(subscribed, false);
              issued := 1;
            } else {
              channels := map[];
              phase := Quitting;
            }
        }
      }
    }

    method CommandReplied()
      requires Valid()
      modifies this
      ensures View() == RepliedStep(old(View())) && Valid()
    {
      ReplyKeeps(View());
      match phase {
        case Commanding(e, target, true) =>
          entries := entries[e := entries[e].(subscribed := target)];
          failed := failed - {entries[e].channel};
          ContinueReconcile(e);
        case Closing(batch, true) =>
          channels, phase, failed := map[], Quitting, failed - batch;
        case Quitting =>
          phase, redis := Idle, {};
        case _ =>
      }
    }
  }
}
