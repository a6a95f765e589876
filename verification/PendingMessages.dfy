/**
 * Messages that a client sends before its connection is ready.
 *
 * They are held while the session is looked up and the connection initialized, and then replayed.
 * The code between two awaits is one step.  Closing a socket takes it out of its open state at
 * once, though messages may still arrive.
 */
module PendingMessages {
  type Message = seq<nat>

  datatype Limits = Limits(messages: nat, bytes: nat)

  datatype Phase = Authenticating | Retaining | Reading | Live | Ended

  datatype State = State(
    phase: Phase,
    pending: seq<Message>,
    bytes: nat,
    open: bool,                  // the socket is in its open state
    limits: Limits,
    arrived: seq<Message>,       // all messages of the socket, in order
    handled: seq<Message>,
    overflowed: bool)

  function Initial(limits: Limits): State { State(Authenticating, [], 0, true, limits, [], [], false) }

  datatype Lookup = Found | Missing | Unavailable

  datatype Event =
    | Received(message: Message)
    | SessionReplied(lookup: Lookup)
    | ChannelReplied(ok: bool)          // the user channel is retained, or that failed
    | StatesReplied(ok: bool, stillOpen: bool)
    | Closing                           // either side starts to close the socket
    | Removed                           // the socket's close or error event

  function Total(messages: seq<Message>): nat {
    if messages == [] then 0 else Total(messages[..|messages| - 1]) + |messages[|messages| - 1]|
  }

  // ---------- Steps ----------

  predicate Overflows(s: State, m: Message) {
    |s.pending| >= s.limits.messages || s.bytes + |m| > s.limits.bytes
  }

  // Too many messages: the backlog is dropped and the socket closed.
  function Queue(s: State, m: Message): State {
    if Overflows(s, m) then s.(pending := [], bytes := 0, open := false, overflowed := true)
    else s.(pending := s.pending + [m], bytes := s.bytes + |m|)
  }

  function End(s: State): State {
    s.(phase := Ended, pending := [], bytes := 0)
  }

  function ReceiveStep(s: State, m: Message): State {
    var r := s.(arrived := s.arrived + [m]);
    match s.phase
    case Live => r.(handled := s.handled + [m])
    case Ended => r
    case _ => Queue(r, m)
  }

  // The initializer copies the early messages and counts them anew.
  function Authenticated(s: State): State { s.(phase := Retaining, bytes := Total(s.pending)) }

  // The backlog is replayed before anything that arrives later.
  function Replay(s: State): State {
    s.(phase := Live, handled := s.handled + s.pending, pending := [], bytes := 0)
  }

  function Step(s: State, ev: Event): State {
    match ev
    case Received(m) => ReceiveStep(s, m)
    case Closing => s.(open := false)
    case Removed => if s.phase.Authenticating? then s.(open := false) else if s.phase.Ended? then s else End(s).(open := false)
    case SessionReplied(lookup) =>
      if !s.phase.Authenticating? then s
      else if lookup.Found? && s.open then Authenticated(s)
      else End(s).(open := false)
    case ChannelReplied(ok) =>
      if !s.phase.Retaining? then s
      else if ok && s.open then s.(phase := Reading)
      else End(s).(open := false)
    case StatesReplied(ok, stillOpen) =>
      if !s.phase.Reading? then s
      else if ok && s.open && stillOpen then Replay(s)
      else End(s).(open := false)
  }

  function Exec(limits: Limits, evs: seq<Event>): State
    decreases |evs|
  {
    if evs == [] then Initial(limits) else Step(Exec(limits, evs[..|evs| - 1]), evs[|evs| - 1])
  }

  // ---------- What every step keeps ----------

  ghost predicate Inv(s: State) {
    && |s.pending| <= s.limits.messages && s.bytes <= s.limits.bytes
    && s.bytes == Total(s.pending)
    && match s.phase
       case Live => !s.overflowed && s.pending == [] && s.handled == s.arrived
       case Ended =>
         s.pending == [] && (s.overflowed ==> s.handled == [])
       case _ =>
         && s.handled == [] && (s.overflowed ==> !s.open) && (!s.overflowed ==> s.pending == s.arrived)
  }

  lemma TotalGrows(messages: seq<Message>, m: Message)
    ensures Total(messages + [m]) == Total(messages) + |m|
  {
    assert (messages + [m])[..|messages|] == messages;
  }

  lemma QueueKeeps(s: State, m: Message)
    requires Inv(s) && !s.phase.Live? && !s.phase.Ended?
    ensures Inv(Queue(s.(arrived := s.arrived + [m]), m))
  {
    TotalGrows(s.pending, m);
  }

  lemma ReceiveKeeps(s: State, m: Message)
    requires Inv(s)
    ensures Inv(ReceiveStep(s, m))
  {
    match s.phase
    case Live =>
    case Ended =>
    case _ => QueueKeeps(s, m);
  }

  lemma StepKeeps(s: State, ev: Event)
    requires Inv(s)
    ensures Inv(Step(s, ev))
  {
    match ev
    case Received(m) => ReceiveKeeps(s, m);
    case _ =>
  }

  lemma {:induction false} ExecKeeps(limits: Limits, evs: seq<Event>)
    ensures Inv(Exec(limits, evs)) && Exec(limits, evs).limits == limits
    decreases |evs|
  {
    if evs != [] {
      ExecKeeps(limits, evs[..|evs| - 1]);
      StepKeeps(Exec(limits, evs[..|evs| - 1]), evs[|evs| - 1]);
    }
  }

  // The messages among the events.
  function Messages(evs: seq<Event>): seq<Message> {
    if evs == [] then []
    else
      var last := evs[|evs| - 1];
      Messages(evs[..|evs| - 1]) + if last.Received? then [last.message] else []
  }

  lemma {:induction false} ArrivalsAreRecorded(limits: Limits, evs: seq<Event>)
    ensures Exec(limits, evs).arrived == Messages(evs)
    decreases |evs|
  {
    if evs != [] {
      ArrivalsAreRecorded(limits, evs[..|evs| - 1]);
    }
  }

  /** A ready connection has handled every message it ever got: each exactly once and in order of arrival. */
  lemma LiveConnectionsHandleEverything(limits: Limits, evs: seq<Event>)
    ensures Exec(limits, evs).phase.Live? ==> Exec(limits, evs).handled == Messages(evs) && !Exec(limits, evs).overflowed
  {
    ExecKeeps(limits, evs);
    ArrivalsAreRecorded(limits, evs);
  }

  /** Before that, the backlog holds all messages in order, or an overflow has closed the socket; none was handled. */
  lemma {:induction false} BacklogHoldsEverything(limits: Limits, evs: seq<Event>)
    ensures var s := Exec(limits, evs);
            !s.phase.Live? && !s.phase.Ended? ==>
              s.handled == [] && if s.overflowed then !s.open else s.pending == Messages(evs)
  {
    ExecKeeps(limits, evs);
    ArrivalsAreRecorded(limits, evs);
  }

  ghost predicate ReadyAt(limits: Limits, evs: seq<Event>, n: nat) {
    n <= |evs| && Exec(limits, evs[..n]).phase.Live?
  }

  // The connection was ready after some of the events.
  ghost predicate WasReady(limits: Limits, evs: seq<Event>) { exists n :: ReadyAt(limits, evs, n) }

  // It was ready after `n` events, and ended with the next one.
  ghost predicate EndedReady(limits: Limits, evs: seq<Event>, n: nat) {
    n < |evs| && Exec(limits, evs[..n]).phase.Live? && Exec(limits, evs[..n + 1]).phase.Ended?
  }

  lemma WasReadyGrows(limits: Limits, evs: seq<Event>)
    requires evs != []
    ensures WasReady(limits, evs) <==> WasReady(limits, evs[..|evs| - 1]) || Exec(limits, evs).phase.Live?
  {
    var before := evs[..|evs| - 1];
    assert evs[..|evs|] == evs;
    forall n: nat ensures ReadyAt(limits, evs, n) <==>
                          ReadyAt(limits, before, n) || (n == |evs| && Exec(limits, evs).phase.Live?) {
      assert n <= |before| ==> evs[..n] == before[..n];
    }
    if Exec(limits, evs).phase.Live? {
      assert ReadyAt(limits, evs, |evs|);
    }
  }

  // A connection that was ready stays so until it ends, and an ended one stays ended.
  lemma {:induction false} ReadyStaysOrEnds(limits: Limits, evs: seq<Event>)
    ensures WasReady(limits, evs) ==>
              (Exec(limits, evs).phase.Live? || Exec(limits, evs).phase.Ended?) && !Exec(limits, evs).overflowed
    decreases |evs|
  {
    ExecKeeps(limits, evs);
    if evs != [] {
      ReadyStaysOrEnds(limits, evs[..|evs| - 1]);
      WasReadyGrows(limits, evs);
      if WasReady(limits, evs[..|evs| - 1]) {
        ReadyStep(Exec(limits, evs[..|evs| - 1]), evs[|evs| - 1]);
      }
    } else {
      assert evs[..0] == [];
      assert forall n: nat :: ReadyAt(limits, evs, n) ==> n == 0;
    }
  }

  lemma ReadyStep(s: State, ev: Event)
    requires s.phase.Live? || s.phase.Ended?
    ensures Step(s, ev).phase.Live? || Step(s, ev).phase.Ended?
    ensures Step(s, ev).overflowed == s.overflowed
  {
  }

  /**
   * An ended connection that was ever ready has handled every message that arrived before its end,
   * in order; one that never was has handled none, and after an overflow none is ever ready.
   */
  lemma {:induction false} EndedConnectionsHandleAllOrNothing(limits: Limits, evs: seq<Event>)
    requires Exec(limits, evs).phase.Ended?
    ensures if WasReady(limits, evs)
            then exists n: nat :: EndedReady(limits, evs, n) && Exec(limits, evs).handled == Messages(evs[..n])
            else Exec(limits, evs).handled == []
    ensures Exec(limits, evs).overflowed ==> !WasReady(limits, evs)
    decreases |evs|
  {
    ExecKeeps(limits, evs);
    ReadyStaysOrEnds(limits, evs);
    var k := |evs| - 1;
    var before := evs[..k];
    var s := Exec(limits, before);
    ExecKeeps(limits, before);
    ArrivalsAreRecorded(limits, before);
    ReadyStaysOrEnds(limits, before);
    EndingKeepsHandled(s, evs[k]);
    WasReadyGrows(limits, evs);
    assert evs[..k + 1] == evs;
    if s.phase.Ended? {
      EndedConnectionsHandleAllOrNothing(limits, before);
      if WasReady(limits, before) {
        var n: nat :| EndedReady(limits, before, n) && s.handled == Messages(before[..n]);
        EndedReadyGrows(limits, evs, n);
      }
    } else if s.phase.Live? {
      assert EndedReady(limits, evs, k);
      LiveWasReady(limits, before);
    }
  }

  lemma EndedReadyGrows(limits: Limits, evs: seq<Event>, n: nat)
    requires evs != [] && EndedReady(limits, evs[..|evs| - 1], n)
    ensures EndedReady(limits, evs, n) && evs[..n] == evs[..|evs| - 1][..n]
  {
    var before := evs[..|evs| - 1];
    assert evs[..n] == before[..n] && evs[..n + 1] == before[..n + 1];
  }

  lemma LiveWasReady(limits: Limits, evs: seq<Event>)
    requires Exec(limits, evs).phase.Live?
    ensures WasReady(limits, evs)
  {
    assert evs[..|evs|] == evs;
    assert ReadyAt(limits, evs, |evs|);
  }

  lemma EndingKeepsHandled(s: State, ev: Event)
    requires Inv(s) && Step(s, ev).phase.Ended?
    ensures Step(s, ev).handled == s.handled
  {
  }

  /** The backlog never exceeds its limits, and its byte count is the sum of the lengths. */
  lemma BacklogIsBounded(limits: Limits, evs: seq<Event>)
    ensures var s := Exec(limits, evs);
            |s.pending| <= limits.messages && s.bytes <= limits.bytes && s.bytes == Total(s.pending)
  {
    ExecKeeps(limits, evs);
  }

  // ---------- When a connection gets ready ----------

  /** A connection gets ready only after its session was found, its channel retained and its states loaded. */
  lemma {:induction false} ReadyMeansAccepted(limits: Limits, evs: seq<Event>)
    ensures var s := Exec(limits, evs);
            && (s.phase.Retaining? || s.phase.Reading? || s.phase.Live? ==> SessionReplied(Found) in evs)
            && (s.phase.Reading? || s.phase.Live? ==> ChannelReplied(true) in evs)
            && (s.phase.Live? ==> StatesReplied(true, true) in evs)
    decreases |evs|
  {
    if evs != [] {
      var n := |evs| - 1;
      ReadyMeansAccepted(limits, evs[..n]);
      assert evs[n] in evs && forall ev :: ev in evs[..n] ==> ev in evs;
      PhasesFollowReplies(Exec(limits, evs[..n]), evs[n]);
    }
  }

  lemma PhasesFollowReplies(s: State, ev: Event)
    ensures var r := Step(s, ev);
            && (r.phase.Retaining? ==> s.phase.Retaining? || ev == SessionReplied(Found))
            && (r.phase.Reading? ==> s.phase.Reading? || (s.phase.Retaining? && ev == ChannelReplied(true)))
            && (r.phase.Live? ==> s.phase.Live? || (s.phase.Reading? && ev == StatesReplied(true, true)))
  {
  }

  // The reply that this phase awaits did not let the connection go on.
  predicate Refuses(s: State, ev: Event) {
    match s.phase
    case Authenticating => ev.SessionReplied? && (ev.lookup != Found || !s.open)
    case Retaining => ev == Removed || (ev.ChannelReplied? && (!ev.ok || !s.open))
    case Reading => ev == Removed || (ev.StatesReplied? && (!ev.ok || !ev.stillOpen || !s.open))
    case Live => ev == Removed
    case Ended => true
  }

  /** A connection ends exactly if a reply refuses it or its socket is gone, and then holds no backlog. */
  lemma RefusalsEnd(s: State, ev: Event)
    ensures Step(s, ev).phase.Ended? <==> Refuses(s, ev)
    ensures Refuses(s, ev) && !s.phase.Ended? ==> Step(s, ev).pending == [] && !Step(s, ev).open && Step(s, ev).handled == s.handled
  {
  }

  function Received(ms: seq<Message>): seq<Event> {
    seq(|ms|, i requires 0 <= i < |ms| => Event.Received(ms[i]))
  }

  lemma TotalJoins(a: seq<Message>, b: seq<Message>)
    ensures Total(a + b) == Total(a) + Total(b)
    decreases |b|
  {
    if b == [] {
      assert a + b == a;
    } else {
      var n := |b| - 1;
      assert (a + b)[..|a| + n] == a + b[..n];
      TotalJoins(a, b[..n]);
    }
  }

  lemma ReceivedGrows(ms: seq<Message>)
    requires ms != []
    ensures Received(ms) == Received(ms[..|ms| - 1]) + [Event.Received(ms[|ms| - 1])]
  {
  }

  // The connection still waits, and has these messages queued.
  ghost predicate Waits(s: State, phase: Phase, pending: seq<Message>) {
    s.phase == phase && !phase.Live? && !phase.Ended? && s.open && !s.overflowed && s.pending == pending
  }

  function ReceiveAll(s: State, ms: seq<Message>): State
    decreases |ms|
  {
    if ms == [] then s else Step(ReceiveAll(s, ms[..|ms| - 1]), Event.Received(ms[|ms| - 1]))
  }

  lemma {:induction false} ReceivedOneByOne(limits: Limits, evs: seq<Event>, ms: seq<Message>)
    ensures Exec(limits, evs + Received(ms)) == ReceiveAll(Exec(limits, evs), ms)
    decreases |ms|
  {
    if ms == [] {
      assert evs + Received(ms) == evs;
    } else {
      var n := |ms| - 1;
      ReceivedGrows(ms);
      assert evs + Received(ms) == evs + Received(ms[..n]) + [Event.Received(ms[n])];
      OneMore(limits, evs + Received(ms[..n]), Event.Received(ms[n]));
      ReceivedOneByOne(limits, evs, ms[..n]);
    }
  }

  // Messages that fit are queued, and nothing else happens.
  lemma {:induction false} FittingMessagesQueue(s: State, ms: seq<Message>)
    requires Inv(s) && Waits(s, s.phase, s.pending)
    requires |s.pending| + |ms| <= s.limits.messages && Total(s.pending) + Total(ms) <= s.limits.bytes
    ensures Inv(ReceiveAll(s, ms)) && ReceiveAll(s, ms).limits == s.limits
    ensures Waits(ReceiveAll(s, ms), s.phase, s.pending + ms)
    decreases |ms|
  {
    if ms == [] {
      assert s.pending + ms == s.pending;
    } else {
      var n := |ms| - 1;
      FittingMessagesQueue(s, ms[..n]);
      TotalJoins(s.pending, ms[..n]);
      var r := ReceiveAll(s, ms[..n]);
      FittingMessageQueues(r, ms[n]);
      StepKeeps(r, Event.Received(ms[n]));
      LastJoins(s.pending, ms);
    }
  }

  lemma LastJoins(pending: seq<Message>, ms: seq<Message>)
    requires ms != []
    ensures pending + ms[..|ms| - 1] + [ms[|ms| - 1]] == pending + ms
  {
  }

  lemma FittingMessageQueues(s: State, m: Message)
    requires Inv(s) && Waits(s, s.phase, s.pending)
    requires |s.pending| < s.limits.messages && Total(s.pending) + |m| <= s.limits.bytes
    ensures Waits(Step(s, Event.Received(m)), s.phase, s.pending + [m])
  {
  }

  lemma OneMore(limits: Limits, evs: seq<Event>, ev: Event)
    ensures Exec(limits, evs + [ev]) == Step(Exec(limits, evs), ev)
  {
    assert (evs + [ev])[..|evs|] == evs;
  }

  /**
   * Conversely, three good replies make a connection ready, whatever messages come in between, as
   * long as these fit the limits together.
   */
  lemma AcceptedConnectionsGetReady(limits: Limits, a: seq<Message>, b: seq<Message>, c: seq<Message>)
    requires |a + b + c| <= limits.messages && Total(a + b + c) <= limits.bytes
    ensures var evs := Received(a) + [SessionReplied(Found)] + Received(b) + [ChannelReplied(true)] + Received(c)
                       + [StatesReplied(true, true)];
            Exec(limits, evs).phase.Live? && Exec(limits, evs).handled == a + b + c
  {
    TotalJoins(a + b, c);
    TotalJoins(a, b);
    assert [] + Received(a) == Received(a);
    var first := Received(a) + [SessionReplied(Found)];
    var second := first + Received(b) + [ChannelReplied(true)];
    assert [] + a == a;
    RepliesGoOn(limits, [], a, SessionReplied(Found));
    RepliesGoOn(limits, first, b, ChannelReplied(true));
    RepliesGoOn(limits, second, c, StatesReplied(true, true));
  }

  // The good reply to each phase.
  predicate Grants(phase: Phase, ev: Event) {
    match phase
    case Authenticating => ev == SessionReplied(Found)
    case Retaining => ev == ChannelReplied(true)
    case Reading => ev == StatesReplied(true, true)
    case _ => false
  }

  lemma GrantedGoOn(s: State, ev: Event)
    requires Grants(s.phase, ev) && s.open && !s.overflowed
    ensures var r := Step(s, ev);
            && r.open && !r.overflowed
            && (s.phase.Authenticating? ==> r.phase.Retaining? && r.pending == s.pending)
            && (s.phase.Retaining? ==> r.phase.Reading? && r.pending == s.pending)
            && (s.phase.Reading? ==> r.phase.Live? && r.handled == s.handled + s.pending)
  {
  }

  lemma RepliesGoOn(limits: Limits, evs: seq<Event>, ms: seq<Message>, ev: Event)
    requires var s := Exec(limits, evs); Grants(s.phase, ev) && s.open && !s.overflowed
    requires var s := Exec(limits, evs); |s.pending| + |ms| <= limits.messages && Total(s.pending) + Total(ms) <= limits.bytes
    ensures var s, r := Exec(limits, evs), Exec(limits, evs + Received(ms) + [ev]);
            && r.open && !r.overflowed
            && (s.phase.Authenticating? ==> r.phase.Retaining? && r.pending == s.pending + ms)
            && (s.phase.Retaining? ==> r.phase.Reading? && r.pending == s.pending + ms)
            && (s.phase.Reading? ==> r.phase.Live? && r.handled == s.pending + ms)
  {
    ExecKeeps(limits, evs);
    FittingMessagesQueue(Exec(limits, evs), ms);
    ReceivedOneByOne(limits, evs, ms);
    OneMore(limits, evs + Received(ms), ev);
    GrantedGoOn(Exec(limits, evs + Received(ms)), ev);
    ExecKeeps(limits, evs + Received(ms));
  }

  // ---------- The backlog in place ----------

  class PendingClientMessages {
    var messages: seq<Message>
    var bytes: nat

    ghost predicate Valid() reads this { bytes == Total(messages) }

    constructor ()
      ensures Valid() && messages == []
    {
      messages, bytes := [], 0;
    }

    // Returns whether the socket must be closed.
    method Queue(m: Message, limits: Limits) returns (overflow: bool)
      requires Valid()
      modifies this
      ensures Valid()
      ensures overflow <==> |old(messages)| >= limits.messages || Total(old(messages)) + |m| > limits.bytes
      ensures messages == if overflow then [] else old(messages) + [m]
    {
      if |messages| >= limits.messages || bytes + |m| > limits.bytes {
        messages, bytes := [], 0;
        return true;
      }
      TotalGrows(messages, m);
      messages, bytes := messages + [m], bytes + |m|;
      overflow := false;
    }

    // Hands the early messages over to the initializer, which counts their bytes again.
    method TakeOver(early: seq<Message>)
      modifies this
      ensures Valid() && messages == early
    {
      messages, bytes := early, 0;
      for i := 0 to |early|
        invariant messages == early && bytes == Total(early[..i])
      {
        TotalGrows(early[..i], early[i]);
        assert early[..i + 1] == early[..i] + [early[i]];
        bytes := bytes + |early[i]|;
      }
      assert early[..|early|] == early;
    }

    method TakeBacklog() returns (backlog: seq<Message>)
      requires Valid()
      modifies this
      ensures Valid() && messages == [] && backlog == old(messages)
    {
      backlog := messages;
      messages, bytes := [], 0;
    }
  }
}
