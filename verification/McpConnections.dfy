/**
 * The connections to remote tool servers: one for each server and user, used by one call at a time.
 *
 * A call holds the lock of its server and user from its authorization to its result.  Connections
 * are cached under a digest of the headers they were opened with.  The code between two awaits is
 * one step, and a call may be interrupted at every await.
 */
module McpConnections {
  import opened Wrappers

  datatype Key = Key(server: string, user: string)

  // `open` holds until the transport ends.
  datatype Connection = Connection(key: Key, digest: string, open: bool)

  datatype Pc =
    | WantsLock
    | Authorizing
    | Closing(digest: string)                  // a stale connection is being closed
    | Joining(digest: string, conn: nat)       // waiting for the session of a connection
    | Ready(digest: string, conn: nat)         // checking the call and its approval
    | Sending(digest: string, conn: nat)
    | Cleaning                                 // a failed connection is being closed

  datatype ResetPc = Locking(n: nat) | Deleting | Popping(n: nat)

  // A call, a reset of a service, or the reaper at an idle connection, with or without its lock.
  datatype Work =
    | Call(key: Key, pc: Pc)
    | Reset(keys: seq<Key>, at: ResetPc)
    | Reap(idle: Key, conn: nat, held: bool)

  // A remote call, and the digest of the headers that its authorization gave.
  datatype Send = Send(call: nat, key: Key, digest: string, conn: nat)

  datatype State = State(
    locks: map<Key, nat>,
    table: map<Key, nat>,
    conns: seq<Connection>,                    // every connection ever opened
    retired: set<nat>,                         // closed or aborted on purpose
    works: map<nat, Work>,
    next: nat,
    sent: seq<Send>)

  const Initial := State(map[], map[], [], {}, map[], 0, [])

  const MAX_CONNECTIONS := 256

  datatype Result = Returned | Failed

  datatype Event =
    | CallBegins(key: Key)
    | ResetBegins(keys: seq<Key>)
    | ReapBegins(key: Key)                     // the cached connection has been idle for long
    | LockTaken(work: nat)
    | LockRefused(work: nat)
    | HeadersReplied(work: nat, digest: Option<string>)
    | CloseReplied(work: nat)
    | SessionReplied(work: nat, ok: bool)
    | Checked(work: nat, allowed: bool)
    | ResultReplied(work: nat, result: Result)
    | DeleteReplied(work: nat, ok: bool)
    | Interrupted(work: nat)
    | TransportEnded(conn: nat)

  // ---------- Steps ----------

  // The locks that some work holds.
  function Holds(w: Work): set<Key> {
    match w
    case Call(key, pc) => if pc.WantsLock? then {} else {key}
    case Reset(keys, at) => set i | 0 <= i < |keys| && (at.Locking? ==> i < at.n) :: keys[i]
    case Reap(key, _, held) => if held then {key} else {}
  }

  function SetPc(s: State, t: nat, pc: Pc): State
    requires t in s.works && s.works[t].Call?
  {
    s.(works := s.works[t := s.works[t].(pc := pc)])
  }

  function End(s: State, t: nat): State
    requires t in s.works
  {
    s.(works := s.works - {t}, locks := s.locks - Holds(s.works[t]))
  }

  function Begin(s: State, w: Work): State { s.(works := s.works[s.next := w], next := s.next + 1) }

  function Pop(s: State, key: Key): State {
    if key in s.table then s.(table := s.table - {key}, retired := s.retired + {s.table[key]}) else s
  }

  function OpenStep(s: State, t: nat, digest: string): State
    requires t in s.works && s.works[t].Call?
  {
    var key := s.works[t].key;
    if |s.table| >= MAX_CONNECTIONS then End(s, t)
    else
      var grown := s.(conns := s.conns + [Connection(key, digest, true)], table := s.table[key := |s.conns|]);
      SetPc(grown, t, Joining(digest, |s.conns|))
  }

  predicate Stale(s: State, key: Key, digest: string) {
    key in s.table && s.table[key] < |s.conns| && (s.conns[s.table[key]].digest != digest || !s.conns[s.table[key]].open)
  }

  function ConnectStep(s: State, t: nat, digest: string): State
    requires t in s.works && s.works[t].Call?
  {
    var key := s.works[t].key;
    if Stale(s, key, digest) then SetPc(Pop(s, key), t, Closing(digest))
    else if key in s.table then SetPc(s, t, Joining(digest, s.table[key]))
    else OpenStep(s, t, digest)
  }

  // The connection is dropped from the table before it is closed or aborted.
  function FailStep(s: State, t: nat, pc: Pc): State
    requires t in s.works && s.works[t].Call?
  {
    SetPc(Pop(s, s.works[t].key), t, pc)
  }

  // The session of a connection whose transport has ended is not handed out.
  predicate IsOpen(s: State, conn: nat) { conn < |s.conns| && s.conns[conn].open }

  function SendStep(s: State, t: nat, digest: string, conn: nat): State
    requires t in s.works && s.works[t].Call?
  {
    SetPc(s, t, Sending(digest, conn)).(sent := s.sent + [Send(t, s.works[t].key, digest, conn)])
  }

  function InterruptStep(s: State, t: nat): State
    requires t in s.works
  {
    var w := s.works[t];
    if w.Call? && (w.pc.Joining? || w.pc.Sending?) then End(Pop(s, w.key), t) else End(s, t)
  }

  function CallStep(s: State, t: nat, pc: Pc, ev: Event): State
    requires t in s.works && s.works[t].Call?
  {
    match (ev, pc)
    case (LockTaken(_), WantsLock) =>
      if s.works[t].key in s.locks then s
      else SetPc(s, t, Authorizing).(locks := s.locks[s.works[t].key := t])
    case (HeadersReplied(_, digest), Authorizing) =>
      if digest.None? then End(s, t) else ConnectStep(s, t, digest.value)
    case (CloseReplied(_), Closing(digest)) => OpenStep(s, t, digest)
    case (CloseReplied(_), Cleaning) => End(s, t)
    case (SessionReplied(_, ok), Joining(digest, conn)) =>
      if ok then SetPc(s, t, Ready(digest, conn)) else FailStep(s, t, Cleaning)
    case (Checked(_, allowed), Ready(digest, conn)) =>
      if allowed && IsOpen(s, conn) then SendStep(s, t, digest, conn) else End(s, t)
    case (ResultReplied(_, result), Sending(_, _)) =>
      if result.Returned? then End(s, t) else FailStep(s, t, Cleaning)
    case _ => s
  }

  function SetAt(s: State, t: nat, at: ResetPc): State
    requires t in s.works && s.works[t].Reset?
  {
    s.(works := s.works[t := s.works[t].(at := at)])
  }

  function NextLock(s: State, t: nat, keys: seq<Key>, n: nat): State
    requires t in s.works && s.works[t].Reset?
  {
    if n >= |keys| then SetAt(s, t, Deleting)
    else if keys[n] in s.locks then s
    else SetAt(s, t, Locking(n + 1)).(locks := s.locks[keys[n] := t])
  }

  function NextPop(s: State, t: nat, keys: seq<Key>, n: nat): State
    requires t in s.works && s.works[t].Reset?
  {
    if n >= |keys| then End(s, t) else SetAt(Pop(s, keys[n]), t, Popping(n + 1))
  }

  // A reset takes the locks of all its servers, deletes the grant, and drops their connections.
  function ResetStep(s: State, t: nat, keys: seq<Key>, at: ResetPc, ev: Event): State
    requires t in s.works && s.works[t].Reset?
  {
    match (ev, at)
    case (LockTaken(_), Locking(n)) => NextLock(s, t, keys, n)
    case (LockRefused(_), Locking(n)) => if n < |keys| && keys[n] in s.locks then End(s, t) else s
    case (DeleteReplied(_, ok), Deleting) => if ok then SetAt(s, t, Popping(0)) else End(s, t)
    case (CloseReplied(_), Popping(n)) => NextPop(s, t, keys, n)
    case _ => s
  }

  // The reaper takes a lock, and drops the connection if it is still the one it saw.
  function ReapStep(s: State, t: nat, key: Key, conn: nat, held: bool, ev: Event): State
    requires t in s.works && s.works[t].Reap?
  {
    if ev.LockTaken? && !held then
      if key in s.locks then s
      else if key in s.table && s.table[key] == conn then
        Pop(s, key).(works := s.works[t := Reap(key, conn, true)], locks := s.locks[key := t])
      else End(s, t)
    else if ev.CloseReplied? && held then End(s, t)
    else s
  }

  function WorkStep(s: State, t: nat, ev: Event): State
    requires t in s.works
  {
    if ev.Interrupted? then InterruptStep(s, t)
    else match s.works[t]
         case Call(_, pc) => CallStep(s, t, pc, ev)
         case Reset(keys, at) => ResetStep(s, t, keys, at, ev)
         case Reap(key, conn, held) => ReapStep(s, t, key, conn, held, ev)
  }

  function Step(s: State, ev: Event): State {
    match ev
    case CallBegins(key) => Begin(s, Call(key, WantsLock))
    case ResetBegins(keys) => Begin(s, Reset(keys, Locking(0)))
    case ReapBegins(key) => if key in s.table && key !in s.locks then Begin(s, Reap(key, s.table[key], false)) else s
    case TransportEnded(conn) =>
      if conn < |s.conns| then s.(conns := s.conns[conn := s.conns[conn].(open := false)]) else s
    case _ => if ev.work in s.works then WorkStep(s, ev.work, ev) else s
  }

  function ExecFrom(s: State, evs: seq<Event>): State
    decreases |evs|
  {
    if evs == [] then s else Step(ExecFrom(s, evs[..|evs| - 1]), evs[|evs| - 1])
  }

  function Exec(evs: seq<Event>): State { ExecFrom(Initial, evs) }

  // The servers of one service are different.
  ghost predicate Distinct(keys: seq<Key>) { forall i, j :: 0 <= i < j < |keys| ==> keys[i] != keys[j] }

  ghost predicate Proper(ev: Event) { ev.ResetBegins? ==> Distinct(ev.keys) }

  // ---------- What every step keeps ----------

  // The connection that a call uses is the cached one, opened with the headers of this very call.
  ghost predicate Uses(s: State, key: Key, digest: string, conn: nat) {
    key in s.table && s.table[key] == conn && conn < |s.conns| && s.conns[conn].digest == digest
  }

  ghost predicate WorkOk(s: State, w: Work) {
    match w
    case Call(key, Closing(_)) => key !in s.table
    case Call(key, Joining(digest, conn)) => Uses(s, key, digest, conn)
    case Call(key, Ready(digest, conn)) => Uses(s, key, digest, conn)
    case Call(key, Sending(digest, conn)) => Uses(s, key, digest, conn)
    case Call(_, _) => true
    case Reset(keys, at) =>
      && Distinct(keys)
      && (at.Locking? ==> at.n <= |keys|)
      && (at.Popping? ==> at.n <= |keys| && forall i :: 0 <= i < at.n ==> keys[i] !in s.table)
    case Reap(key, _, held) => held ==> key !in s.table
  }

  ghost predicate Owns(s: State, t: nat, k: Key) { t in s.works && k in Holds(s.works[t]) }

  // Every held lock is in the table of locks under its holder, and no other is.
  ghost predicate Locked(s: State) {
    forall t, k :: Owns(s, t, k) <==> k in s.locks && s.locks[k] == t
  }

  ghost predicate TableOk(s: State) {
    && |s.table| <= MAX_CONNECTIONS
    && (forall k :: k in s.table ==> s.table[k] < |s.conns| && s.conns[s.table[k]].key == k && s.table[k] !in s.retired)
    && (forall c :: c in s.retired ==> c < |s.conns|)
  }

  // A call that may have sent.
  predicate Sent(w: Work) { w.Call? && (w.pc.Sending? || w.pc.Cleaning?) }

  // A call has sent nothing before it sends, and never sends twice.
  ghost predicate SentOnce(s: State) {
    && (forall i :: 0 <= i < |s.sent| ==> s.sent[i].call < s.next)
    && (forall i, j :: 0 <= i < j < |s.sent| ==> s.sent[i].call != s.sent[j].call)
    && (forall i :: 0 <= i < |s.sent| && s.sent[i].call in s.works ==>
          Sent(s.works[s.sent[i].call]))
  }

  ghost predicate SentOwn(s: State) {
    forall i :: 0 <= i < |s.sent| ==>
      && s.sent[i].conn < |s.conns|
      && s.conns[s.sent[i].conn].key == s.sent[i].key && s.conns[s.sent[i].conn].digest == s.sent[i].digest
  }

  ghost predicate WorksOk(s: State) {
    forall t :: t in s.works ==> t < s.next && WorkOk(s, s.works[t])
  }

  ghost predicate Inv(s: State) { WorksOk(s) && Locked(s) && TableOk(s) && SentOnce(s) && SentOwn(s) }

  // One work moves, and touches only what its locks protect.
  ghost predicate Moves(s: State, r: State, t: nat)
    requires t in s.works
  {
    && r.next == s.next
    && (forall u :: u != t ==> (u in r.works <==> u in s.works) && (u in s.works ==> r.works[u] == s.works[u]))
    && (forall k :: k !in Holds(s.works[t]) ==> (k in r.table <==> k in s.table) && (k in s.table ==> r.table[k] == s.table[k]))
    && |s.conns| <= |r.conns| && r.conns[..|s.conns|] == s.conns
  }

  lemma OthersOk(s: State, r: State, t: nat, u: nat)
    requires Inv(s) && t in s.works && u in r.works && u != t && Moves(s, r, t)
    ensures WorkOk(r, r.works[u])
  {
    var w := s.works[u];
    assert WorkOk(s, w);
    forall k | k in Holds(w) ensures k !in Holds(s.works[t]) {
      assert Owns(s, u, k) && (Owns(s, t, k) <==> k in Holds(s.works[t]));
    }
    match w
    case Call(key, pc) => CallStaysOk(s, r, key, pc);
    case Reset(keys, at) => ResetStaysOk(s, r, keys, at);
    case Reap(_, _, _) =>
  }

  lemma CallStaysOk(s: State, r: State, key: Key, pc: Pc)
    requires WorkOk(s, Call(key, pc))
    requires !pc.WantsLock? ==> (key in r.table <==> key in s.table) && (key in s.table ==> r.table[key] == s.table[key])
    requires |s.conns| <= |r.conns| && r.conns[..|s.conns|] == s.conns
    ensures WorkOk(r, Call(key, pc))
  {
    assert forall c :: 0 <= c < |s.conns| ==> r.conns[c] == r.conns[..|s.conns|][c];
  }

  lemma ResetStaysOk(s: State, r: State, keys: seq<Key>, at: ResetPc)
    requires WorkOk(s, Reset(keys, at))
    requires forall k :: k in Holds(Reset(keys, at)) ==> (k in r.table <==> k in s.table)
    ensures WorkOk(r, Reset(keys, at))
  {
    if at.Popping? {
      forall i | 0 <= i < at.n ensures keys[i] !in r.table {
        assert keys[i] in Holds(Reset(keys, at));
      }
    }
  }

  lemma MovesKeepsWorks(s: State, r: State, t: nat)
    requires Inv(s) && t in s.works && Moves(s, r, t)
    requires t in r.works ==> WorkOk(r, r.works[t])
    ensures WorksOk(r)
  {
    forall u | u in r.works ensures WorkOk(r, r.works[u]) {
      if u != t {
        OthersOk(s, r, t, u);
      }
    }
  }

  // ---------- Locks ----------

  lemma SameLocks(s: State, r: State, t: nat)
    requires Locked(s) && t in s.works && Moves(s, r, t) && r.locks == s.locks
    requires t in r.works && Holds(r.works[t]) == Holds(s.works[t])
    ensures Locked(r)
  {
    assert forall u, k :: Owns(r, u, k) <==> Owns(s, u, k);
  }

  lemma OneMoreLock(s: State, r: State, t: nat, k: Key)
    requires Locked(s) && t in s.works && Moves(s, r, t) && k !in s.locks && r.locks == s.locks[k := t]
    requires t in r.works && Holds(r.works[t]) == Holds(s.works[t]) + {k}
    ensures Locked(r)
  {
    assert forall u, l :: Owns(r, u, l) <==> Owns(s, u, l) || (u == t && l == k);
  }

  lemma LocksReleased(s: State, r: State, t: nat)
    requires Locked(s) && t in s.works && Moves(s, r, t) && t !in r.works && r.locks == s.locks - Holds(s.works[t])
    ensures Locked(r)
  {
    assert forall u, k :: Owns(r, u, k) <==> Owns(s, u, k) && u != t;
    forall u, k ensures Owns(r, u, k) <==> k in r.locks && r.locks[k] == u {
      assert Owns(s, t, k) <==> k in Holds(s.works[t]);
    }
  }

  // ---------- The history of sends ----------

  lemma SendsStay(s: State, r: State, t: nat)
    requires Inv(s) && t in s.works && Moves(s, r, t) && r.sent == s.sent
    requires t in r.works && Sent(s.works[t]) ==> Sent(r.works[t])
    ensures SentOnce(r) && SentOwn(r)
  {
    forall i | 0 <= i < |r.sent| ensures r.sent[i].conn < |r.conns| && r.conns[r.sent[i].conn] == s.conns[r.sent[i].conn] {
      assert r.conns[..|s.conns|][r.sent[i].conn] == s.conns[r.sent[i].conn];
    }
    forall i | 0 <= i < |r.sent| && r.sent[i].call in r.works ensures Sent(r.works[r.sent[i].call]) {
      assert s.sent[i].call in s.works && Sent(s.works[s.sent[i].call]);
    }
  }

  // ---------- Each step ----------

  lemma PopTable(s: State, key: Key)
    requires TableOk(s)
    ensures TableOk(Pop(s, key)) && key !in Pop(s, key).table
  {
    var r := Pop(s, key);
    if key in s.table {
      assert r.table.Keys == s.table.Keys - {key};
      assert |r.table| == |r.table.Keys| && |s.table| == |s.table.Keys|;
      forall k | k in r.table ensures r.table[k] !in r.retired {
        assert s.conns[s.table[k]].key == k;
      }
    }
  }

  lemma EndKeeps(s: State, t: nat)
    requires Inv(s) && t in s.works
    ensures Inv(End(s, t))
  {
    var r := End(s, t);
    assert r.conns[..|s.conns|] == s.conns;
    MovesKeepsWorks(s, r, t);
    LocksReleased(s, r, t);
    SendsStay(s, r, t);
  }

  // Dropping the connection under a held lock; the call no longer uses it afterwards.
  lemma FailKeeps(s: State, t: nat, pc: Pc)
    requires Inv(s) && t in s.works && s.works[t].Call? && !s.works[t].pc.WantsLock?
    requires pc.Closing? || pc.Cleaning?
    requires Sent(s.works[t]) ==> pc.Cleaning?
    ensures Inv(FailStep(s, t, pc))
  {
    var key := s.works[t].key;
    var r := FailStep(s, t, pc);
    PopTable(s, key);
    assert Holds(s.works[t]) == {key};
    assert r.conns[..|s.conns|] == s.conns;
    MovesKeepsWorks(s, r, t);
    SameLocks(s, r, t);
    SendsStay(s, r, t);
  }

  lemma OpenKeeps(s: State, t: nat, digest: string)
    requires Inv(s) && t in s.works && s.works[t].Call?
    requires (s.works[t].pc.Authorizing? || s.works[t].pc.Closing?) && s.works[t].key !in s.table
    ensures Inv(OpenStep(s, t, digest))
  {
    if |s.table| >= MAX_CONNECTIONS {
      EndKeeps(s, t);
    } else {
      var key := s.works[t].key;
      var r := OpenStep(s, t, digest);
      assert Holds(s.works[t]) == {key};
      assert r.conns[..|s.conns|] == s.conns;
      assert TableOk(r);
      MovesKeepsWorks(s, r, t);
      SameLocks(s, r, t);
      SendsStay(s, r, t);
    }
  }

  // Only the state of the call changes.
  lemma PcKeeps(s: State, t: nat, pc: Pc)
    requires Inv(s) && t in s.works && s.works[t].Call? && !s.works[t].pc.WantsLock? && !pc.WantsLock?
    requires WorkOk(s, Call(s.works[t].key, pc))
    requires Sent(s.works[t]) ==> pc.Sending? || pc.Cleaning?
    ensures Inv(SetPc(s, t, pc))
  {
    var r := SetPc(s, t, pc);
    assert r.conns[..|s.conns|] == s.conns;
    CallStaysOk(s, r, s.works[t].key, pc);
    MovesKeepsWorks(s, r, t);
    SameLocks(s, r, t);
    SendsStay(s, r, t);
  }

  lemma ConnectKeeps(s: State, t: nat, digest: string)
    requires Inv(s) && t in s.works && s.works[t].Call? && s.works[t].pc.Authorizing?
    ensures Inv(ConnectStep(s, t, digest))
  {
    var key := s.works[t].key;
    if Stale(s, key, digest) {
      FailKeeps(s, t, Closing(digest));
    } else if key in s.table {
      PcKeeps(s, t, Joining(digest, s.table[key]));
    } else {
      OpenKeeps(s, t, digest);
    }
  }

  lemma SendKeeps(s: State, t: nat, digest: string, conn: nat)
    requires Inv(s) && t in s.works && s.works[t].Call? && s.works[t].pc == Ready(digest, conn)
    ensures Inv(SendStep(s, t, digest, conn))
  {
    var key := s.works[t].key;
    assert WorkOk(s, s.works[t]);
    var q := SetPc(s, t, Sending(digest, conn));
    PcKeeps(s, t, Sending(digest, conn));
    var r := SendStep(s, t, digest, conn);
    forall u | u in r.works ensures WorkOk(r, r.works[u]) {
      assert WorkOk(q, q.works[u]);
    }
    assert forall u, k :: Owns(r, u, k) <==> Owns(q, u, k);
    SendsOnce(s, t, digest, conn);
  }

  lemma SendsOnce(s: State, t: nat, digest: string, conn: nat)
    requires Inv(s) && t in s.works && s.works[t].Call? && s.works[t].pc == Ready(digest, conn)
    ensures SentOnce(SendStep(s, t, digest, conn)) && SentOwn(SendStep(s, t, digest, conn))
  {
    assert WorkOk(s, s.works[t]);
    forall i | 0 <= i < |s.sent| ensures s.sent[i].call != t {
    }
  }

  lemma TakeMoves(s: State, t: nat)
    requires t in s.works && s.works[t].Call? && s.works[t].pc.WantsLock?
    ensures var r := SetPc(s, t, Authorizing).(locks := s.locks[s.works[t].key := t]);
            Moves(s, r, t) && WorkOk(r, r.works[t]) && Holds(r.works[t]) == Holds(s.works[t]) + {s.works[t].key}
  {
    assert s.conns[..|s.conns|] == s.conns;
  }

  lemma TakeKeeps(s: State, t: nat)
    requires Inv(s) && t in s.works && s.works[t].Call? && s.works[t].pc.WantsLock? && s.works[t].key !in s.locks
    ensures Inv(SetPc(s, t, Authorizing).(locks := s.locks[s.works[t].key := t]))
  {
    var r := SetPc(s, t, Authorizing).(locks := s.locks[s.works[t].key := t]);
    TakeMoves(s, t);
    MovesKeepsWorks(s, r, t);
    OneMoreLock(s, r, t, s.works[t].key);
    SendsStay(s, r, t);
  }

  predicate Connecting(pc: Pc) { pc.WantsLock? || pc.Authorizing? || pc.Closing? }

  lemma ConnectingKeeps(s: State, t: nat, ev: Event)
    requires Inv(s) && t in s.works && s.works[t].Call? && Connecting(s.works[t].pc)
    ensures Inv(CallStep(s, t, s.works[t].pc, ev))
  {
    assert WorkOk(s, s.works[t]);
    match (ev, s.works[t].pc)
    case (LockTaken(_), WantsLock) =>
      if s.works[t].key !in s.locks {
        TakeKeeps(s, t);
      }
    case (HeadersReplied(_, digest), Authorizing) =>
      if digest.None? {
        EndKeeps(s, t);
      } else {
        ConnectKeeps(s, t, digest.value);
      }
    case (CloseReplied(_), Closing(digest)) => OpenKeeps(s, t, digest);
    case _ =>
  }

  lemma ConnectedKeeps(s: State, t: nat, ev: Event)
    requires Inv(s) && t in s.works && s.works[t].Call? && !Connecting(s.works[t].pc)
    ensures Inv(CallStep(s, t, s.works[t].pc, ev))
  {
    assert WorkOk(s, s.works[t]);
    match (ev, s.works[t].pc)
    case (CloseReplied(_), Cleaning) => EndKeeps(s, t);
    case (SessionReplied(_, ok), Joining(digest, conn)) =>
      if ok {
        PcKeeps(s, t, Ready(digest, conn));
      } else {
        FailKeeps(s, t, Cleaning);
      }
    case (Checked(_, allowed), Ready(digest, conn)) =>
      if allowed && IsOpen(s, conn) {
        SendKeeps(s, t, digest, conn);
      } else {
        EndKeeps(s, t);
      }
    case (ResultReplied(_, result), Sending(_, _)) =>
      if result.Returned? {
        EndKeeps(s, t);
      } else {
        FailKeeps(s, t, Cleaning);
      }
    case _ =>
  }

  lemma CallKeeps(s: State, t: nat, ev: Event)
    requires Inv(s) && t in s.works && s.works[t].Call?
    ensures Inv(CallStep(s, t, s.works[t].pc, ev))
  {
    if Connecting(s.works[t].pc) {
      ConnectingKeeps(s, t, ev);
    } else {
      ConnectedKeeps(s, t, ev);
    }
  }

  lemma AtKeeps(s: State, t: nat, at: ResetPc)
    requires Inv(s) && t in s.works && s.works[t].Reset?
    requires Holds(Reset(s.works[t].keys, at)) == Holds(s.works[t]) && WorkOk(s, Reset(s.works[t].keys, at))
    ensures Inv(SetAt(s, t, at))
  {
    var r := SetAt(s, t, at);
    assert r.conns[..|s.conns|] == s.conns;
    ResetStaysOk(s, r, s.works[t].keys, at);
    MovesKeepsWorks(s, r, t);
    SameLocks(s, r, t);
    SendsStay(s, r, t);
  }

  lemma NextLockKeeps(s: State, t: nat, keys: seq<Key>, n: nat)
    requires Inv(s) && t in s.works && s.works[t] == Reset(keys, Locking(n)) && n < |keys| && keys[n] !in s.locks
    ensures Inv(SetAt(s, t, Locking(n + 1)).(locks := s.locks[keys[n] := t]))
  {
    var r := SetAt(s, t, Locking(n + 1)).(locks := s.locks[keys[n] := t]);
    assert WorkOk(s, s.works[t]);
    assert r.conns[..|s.conns|] == s.conns;
    MovesKeepsWorks(s, r, t);
    assert Holds(r.works[t]) == Holds(s.works[t]) + {keys[n]};
    OneMoreLock(s, r, t, keys[n]);
    SendsStay(s, r, t);
  }

  lemma NextPopKeeps(s: State, t: nat, keys: seq<Key>, n: nat)
    requires Inv(s) && t in s.works && s.works[t] == Reset(keys, Popping(n)) && n < |keys|
    ensures Inv(SetAt(Pop(s, keys[n]), t, Popping(n + 1)))
  {
    var r := SetAt(Pop(s, keys[n]), t, Popping(n + 1));
    PopTable(s, keys[n]);
    NextPopIsOk(s, t, keys, n);
    MovesKeepsWorks(s, r, t);
    SameLocks(s, r, t);
    SendsStay(s, r, t);
  }

  lemma NextPopIsOk(s: State, t: nat, keys: seq<Key>, n: nat)
    requires Inv(s) && t in s.works && s.works[t] == Reset(keys, Popping(n)) && n < |keys|
    ensures var r := SetAt(Pop(s, keys[n]), t, Popping(n + 1));
            Moves(s, r, t) && WorkOk(r, r.works[t]) && Holds(r.works[t]) == Holds(s.works[t])
  {
    var r := SetAt(Pop(s, keys[n]), t, Popping(n + 1));
    assert WorkOk(s, s.works[t]);
    assert keys[n] in Holds(s.works[t]);
    assert r.conns[..|s.conns|] == s.conns;
    assert Holds(r.works[t]) == Holds(s.works[t]);
  }

  lemma HoldsAll(keys: seq<Key>)
    ensures Holds(Reset(keys, Deleting)) == Holds(Reset(keys, Popping(0))) == Holds(Reset(keys, Locking(|keys|)))
  {
  }

  lemma AllLockedKeeps(s: State, t: nat, keys: seq<Key>, n: nat)
    requires Inv(s) && t in s.works && s.works[t] == Reset(keys, Locking(n)) && n >= |keys|
    ensures Inv(SetAt(s, t, Deleting))
  {
    assert WorkOk(s, s.works[t]);
    HoldsAll(keys);
    AtKeeps(s, t, Deleting);
  }

  lemma LockingKeeps(s: State, t: nat, keys: seq<Key>, n: nat)
    requires Inv(s) && t in s.works && s.works[t] == Reset(keys, Locking(n))
    ensures Inv(NextLock(s, t, keys, n))
  {
    if n >= |keys| {
      AllLockedKeeps(s, t, keys, n);
    } else if keys[n] !in s.locks {
      NextLockKeeps(s, t, keys, n);
    }
  }

  lemma PoppingKeeps(s: State, t: nat, keys: seq<Key>, n: nat)
    requires Inv(s) && t in s.works && s.works[t] == Reset(keys, Popping(n))
    ensures Inv(NextPop(s, t, keys, n))
  {
    if n >= |keys| {
      EndKeeps(s, t);
    } else {
      NextPopKeeps(s, t, keys, n);
    }
  }

  lemma DeletingKeeps(s: State, t: nat, keys: seq<Key>, ok: bool)
    requires Inv(s) && t in s.works && s.works[t] == Reset(keys, Deleting)
    ensures Inv(ResetStep(s, t, keys, Deleting, DeleteReplied(t, ok)))
  {
    assert WorkOk(s, s.works[t]);
    if ok {
      HoldsAll(keys);
      AtKeeps(s, t, Popping(0));
    } else {
      EndKeeps(s, t);
    }
  }

  lemma ResetKeeps(s: State, t: nat, ev: Event)
    requires Inv(s) && t in s.works && s.works[t].Reset?
    ensures Inv(ResetStep(s, t, s.works[t].keys, s.works[t].at, ev))
  {
    var keys, at := s.works[t].keys, s.works[t].at;
    var r := ResetStep(s, t, keys, at, ev);
    if at.Locking? && ev.LockTaken? {
      assert r == NextLock(s, t, keys, at.n);
      LockingKeeps(s, t, keys, at.n);
    } else if at.Locking? && ev.LockRefused? {
      EndKeeps(s, t);
    } else if at.Deleting? && ev.DeleteReplied? {
      assert r == ResetStep(s, t, keys, Deleting, DeleteReplied(t, ev.ok));
      DeletingKeeps(s, t, keys, ev.ok);
    } else if at.Popping? && ev.CloseReplied? {
      assert r == NextPop(s, t, keys, at.n);
      PoppingKeeps(s, t, keys, at.n);
    } else {
      assert r == s;
    }
  }

  lemma ReapTakes(s: State, t: nat, key: Key, conn: nat)
    requires Inv(s) && t in s.works && s.works[t] == Reap(key, conn, false) && key !in s.locks
    ensures Inv(Pop(s, key).(works := s.works[t := Reap(key, conn, true)], locks := s.locks[key := t]))
  {
    var r := Pop(s, key).(works := s.works[t := Reap(key, conn, true)], locks := s.locks[key := t]);
    PopTable(s, key);
    ReapDropsOnlyItsOwn(s, t, key, conn, r);
    ReapLocks(s, t, key, conn, r);
    ReapSends(s, t, r);
  }

  lemma ReapLocks(s: State, t: nat, key: Key, conn: nat, r: State)
    requires Locked(s) && t in s.works && s.works[t] == Reap(key, conn, false) && key !in s.locks
    requires r.works == s.works[t := Reap(key, conn, true)] && r.locks == s.locks[key := t]
    ensures Locked(r)
  {
    assert forall u, k :: Owns(r, u, k) <==> Owns(s, u, k) || (u == t && k == key);
  }

  lemma ReapDropsOnlyItsOwn(s: State, t: nat, key: Key, conn: nat, r: State)
    requires Inv(s) && t in s.works && s.works[t] == Reap(key, conn, false) && key !in s.locks
    requires r == Pop(s, key).(works := s.works[t := Reap(key, conn, true)], locks := s.locks[key := t])
    ensures WorksOk(r)
  {
    forall u | u in r.works ensures WorkOk(r, r.works[u]) {
      if u != t {
        var w := s.works[u];
        assert WorkOk(s, w);
        assert key !in Holds(w) by {
          assert Owns(s, u, key) <==> key in Holds(w);
        }
        match w
        case Call(k, pc) => CallStaysOk(s, r, k, pc);
        case Reset(keys, at) => ResetStaysOk(s, r, keys, at);
        case Reap(_, _, _) =>
      }
    }
  }

  lemma ReapSends(s: State, t: nat, r: State)
    requires Inv(s) && t in s.works && s.works[t].Reap? && r.sent == s.sent && r.conns == s.conns && r.next == s.next
    requires t in r.works && r.works[t].Reap? && r.works == s.works[t := r.works[t]]
    ensures SentOnce(r) && SentOwn(r)
  {
    forall i | 0 <= i < |r.sent| && r.sent[i].call in r.works ensures Sent(r.works[r.sent[i].call]) {
      assert s.sent[i].call in s.works && Sent(s.works[s.sent[i].call]);
    }
  }

  lemma ReapKeeps(s: State, t: nat, ev: Event)
    requires Inv(s) && t in s.works && s.works[t].Reap?
    ensures Inv(ReapStep(s, t, s.works[t].idle, s.works[t].conn, s.works[t].held, ev))
  {
    var Reap(key, conn, held) := s.works[t];
    if ev.LockTaken? && !held {
      if key !in s.locks {
        ReapTakes(s, t, key, conn);
        EndKeeps(s, t);
      }
    } else if ev.CloseReplied? && held {
      EndKeeps(s, t);
    }
  }

  lemma InterruptKeeps(s: State, t: nat)
    requires Inv(s) && t in s.works
    ensures Inv(InterruptStep(s, t))
  {
    var w := s.works[t];
    if w.Call? && (w.pc.Joining? || w.pc.Sending?) {
      FailKeeps(s, t, Cleaning);
      EndKeeps(FailStep(s, t, Cleaning), t);
      FailThenEnd(s, t);
    } else {
      EndKeeps(s, t);
    }
  }

  lemma FailThenEnd(s: State, t: nat)
    requires t in s.works && s.works[t].Call? && !s.works[t].pc.WantsLock?
    ensures End(Pop(s, s.works[t].key), t) == End(FailStep(s, t, Cleaning), t)
  {
    var a, b := End(Pop(s, s.works[t].key), t), End(FailStep(s, t, Cleaning), t);
    assert a.works == b.works;
    assert a.locks == b.locks;
  }

  lemma BeginIsOk(s: State, w: Work)
    requires Inv(s) && Holds(w) == {} && WorkOk(s, w)
    ensures WorksOk(Begin(s, w))
  {
    var r := Begin(s, w);
    forall u | u in r.works ensures WorkOk(r, r.works[u]) {
      match r.works[u]
      case Call(key, pc) => CallStaysOk(s, r, key, pc);
      case Reset(keys, at) => ResetStaysOk(s, r, keys, at);
      case Reap(_, _, _) =>
    }
  }

  lemma BeginKeeps(s: State, w: Work)
    requires Inv(s) && Holds(w) == {} && WorkOk(s, w)
    ensures Inv(Begin(s, w))
  {
    BeginIsOk(s, w);
    BeginLocks(s, w);
    BeginSends(s, w);
  }

  lemma BeginLocks(s: State, w: Work)
    requires Inv(s) && Holds(w) == {}
    ensures Locked(Begin(s, w)) && TableOk(Begin(s, w))
  {
    assert s.next !in s.works;
    assert forall t, k :: Owns(Begin(s, w), t, k) <==> Owns(s, t, k);
  }

  lemma BeginSends(s: State, w: Work)
    requires Inv(s)
    ensures SentOnce(Begin(s, w)) && SentOwn(Begin(s, w))
  {
  }

  lemma TransportIsOk(s: State, r: State, w: Work)
    requires WorkOk(s, w) && r.table == s.table && |r.conns| == |s.conns|
    requires forall c :: 0 <= c < |s.conns| ==> r.conns[c].digest == s.conns[c].digest
    ensures WorkOk(r, w)
  {
  }

  lemma SameConnections(s: State, r: State)
    requires TableOk(s) && SentOwn(s) && r == s.(conns := r.conns) && |r.conns| == |s.conns|
    requires forall c :: 0 <= c < |s.conns| ==> r.conns[c].key == s.conns[c].key && r.conns[c].digest == s.conns[c].digest
    ensures TableOk(r) && SentOwn(r)
  {
  }

  lemma TransportKeeps(s: State, conn: nat)
    requires Inv(s) && conn < |s.conns|
    ensures Inv(Step(s, TransportEnded(conn)))
  {
    var r := Step(s, TransportEnded(conn));
    assert forall c :: 0 <= c < |s.conns| ==> r.conns[c].key == s.conns[c].key && r.conns[c].digest == s.conns[c].digest;
    SameConnections(s, r);
    assert forall u, k :: Owns(r, u, k) <==> Owns(s, u, k);
    forall u | u in r.works ensures WorkOk(r, r.works[u]) {
      TransportIsOk(s, r, s.works[u]);
    }
  }

  lemma WorkKeeps(s: State, t: nat, ev: Event)
    requires Inv(s) && t in s.works && !ev.Interrupted?
    ensures Inv(WorkStep(s, t, ev))
  {
    match s.works[t]
    case Call(_, _) => CallKeeps(s, t, ev);
    case Reset(_, _) => ResetKeeps(s, t, ev);
    case Reap(_, _, _) => ReapKeeps(s, t, ev);
  }

  lemma BeginningsKeep(s: State, ev: Event)
    requires Inv(s) && Proper(ev) && (ev.CallBegins? || ev.ResetBegins? || ev.ReapBegins?)
    ensures Inv(Step(s, ev))
  {
    match ev
    case CallBegins(key) => BeginKeeps(s, Call(key, WantsLock));
    case ResetBegins(keys) => BeginKeeps(s, Reset(keys, Locking(0)));
    case ReapBegins(key) =>
      if key in s.table && key !in s.locks {
        BeginKeeps(s, Reap(key, s.table[key], false));
      }
  }

  lemma StepKeeps(s: State, ev: Event)
    requires Inv(s) && Proper(ev)
    ensures Inv(Step(s, ev))
  {
    if ev.CallBegins? || ev.ResetBegins? || ev.ReapBegins? {
      BeginningsKeep(s, ev);
    } else if ev.TransportEnded? {
      if ev.conn < |s.conns| {
        TransportKeeps(s, ev.conn);
      }
    } else if ev.work in s.works {
      if ev.Interrupted? {
        InterruptKeeps(s, ev.work);
      } else {
        WorkKeeps(s, ev.work, ev);
      }
    }
  }

  ghost predicate AllProper(evs: seq<Event>) { forall ev :: ev in evs ==> Proper(ev) }

  lemma {:induction false} ExecKeeps(evs: seq<Event>)
    requires AllProper(evs)
    ensures Inv(Exec(evs))
    decreases |evs|
  {
    if evs != [] {
      var n := |evs| - 1;
      assert forall ev :: ev in evs[..n] ==> ev in evs;
      ExecKeeps(evs[..n]);
      assert Proper(evs[n]);
      StepKeeps(Exec(evs[..n]), evs[n]);
    }
  }

  // ---------- What follows over whole runs ----------

  /** At most one call of a server and user is past its lock, so a connection never has two calls in flight. */
  lemma {:induction false} OneCallAtATime(evs: seq<Event>, t: nat, u: nat)
    requires AllProper(evs)
    ensures var s := Exec(evs);
            t in s.works && u in s.works && Holds(s.works[t]) * Holds(s.works[u]) != {} ==> t == u
  {
    ExecKeeps(evs);
    var s := Exec(evs);
    if t in s.works && u in s.works && Holds(s.works[t]) * Holds(s.works[u]) != {} {
      var k :| k in Holds(s.works[t]) * Holds(s.works[u]);
      assert Owns(s, t, k) && Owns(s, u, k);
    }
  }

  /**
   * Every remote call goes over a connection of its own server and user that was opened with the
   * headers of its own authorization, and no call is sent twice.
   */
  lemma {:induction false} CallsUseTheirOwnConnection(evs: seq<Event>, i: nat, j: nat)
    requires AllProper(evs) && i < |Exec(evs).sent| && j < |Exec(evs).sent|
    ensures var s := Exec(evs);
            && s.sent[i].conn < |s.conns|
            && s.conns[s.sent[i].conn].key == s.sent[i].key && s.conns[s.sent[i].conn].digest == s.sent[i].digest
            && (s.sent[i].call == s.sent[j].call ==> i == j)
  {
    ExecKeeps(evs);
  }

  /** At most 256 connections are cached, all for their own server and user and none given up. */
  lemma {:induction false} CachedConnectionsAreSound(evs: seq<Event>)
    requires AllProper(evs)
    ensures TableOk(Exec(evs))
  {
    ExecKeeps(evs);
  }

  // No send after the first `n` uses this connection.
  ghost predicate Unused(s: State, conn: nat, n: nat) {
    conn in s.retired && n <= |s.sent| && forall i :: n <= i < |s.sent| ==> s.sent[i].conn != conn
  }

  // A step gives up connections and sends at most over a cached one.
  ghost predicate Retires(s: State, r: State) {
    && s.retired <= r.retired
    && (r.sent == s.sent || exists k, d :: k in s.table && r.sent == s.sent + [d] && d.conn == s.table[k])
  }

  lemma CallsRetire(s: State, t: nat, ev: Event)
    requires Inv(s) && t in s.works && s.works[t].Call?
    ensures Retires(s, CallStep(s, t, s.works[t].pc, ev))
  {
    assert WorkOk(s, s.works[t]);
    if ev.Checked? && s.works[t].pc.Ready? && ev.allowed && IsOpen(s, s.works[t].pc.conn) {
      var r := SendStep(s, t, s.works[t].pc.digest, s.works[t].pc.conn);
      assert r.sent == s.sent + [r.sent[|s.sent|]] && s.works[t].key in s.table;
    }
  }

  lemma OthersRetire(s: State, t: nat, ev: Event)
    requires t in s.works && !s.works[t].Call?
    ensures Retires(s, WorkStep(s, t, ev))
  {
  }

  lemma StepRetires(s: State, ev: Event)
    requires Inv(s)
    ensures Retires(s, Step(s, ev))
  {
    match ev
    case CallBegins(_) =>
    case ResetBegins(_) =>
    case ReapBegins(_) =>
    case TransportEnded(_) =>
    case Interrupted(t) =>
    case _ =>
      if ev.work in s.works {
        if s.works[ev.work].Call? {
          CallsRetire(s, ev.work, ev);
        } else {
          OthersRetire(s, ev.work, ev);
        }
      }
  }

  lemma RetiredStaysUnused(s: State, ev: Event, conn: nat, n: nat)
    requires Inv(s) && Unused(s, conn, n)
    ensures Unused(Step(s, ev), conn, n)
  {
    StepRetires(s, ev);
  }

  /** A connection that was given up, because its call failed or was interrupted, never carries another call. */
  lemma {:induction false} GivenUpConnectionsAreNotReused(s: State, evs: seq<Event>, conn: nat)
    requires Inv(s) && AllProper(evs) && conn in s.retired
    ensures Inv(ExecFrom(s, evs)) && Unused(ExecFrom(s, evs), conn, |s.sent|)
    decreases |evs|
  {
    if evs != [] {
      var n := |evs| - 1;
      assert forall ev :: ev in evs[..n] ==> ev in evs;
      GivenUpConnectionsAreNotReused(s, evs[..n], conn);
      assert Proper(evs[n]);
      RetiredStaysUnused(ExecFrom(s, evs[..n]), evs[n], conn, |s.sent|);
      StepKeeps(ExecFrom(s, evs[..n]), evs[n]);
    }
  }

  /** A failed or interrupted remote call gives its connection up. */
  lemma FailedCallsGiveUpTheirConnection(s: State, t: nat)
    requires Inv(s) && t in s.works && s.works[t].Call? && s.works[t].pc.Sending?
    ensures s.works[t].pc.conn in Step(s, ResultReplied(t, Failed)).retired
    ensures s.works[t].pc.conn in Step(s, Interrupted(t)).retired
  {
    assert WorkOk(s, s.works[t]);
  }

  /** A call whose session fails gives its connection up too, and sends nothing. */
  lemma FailedSessionsGiveUpTheirConnection(s: State, t: nat)
    requires Inv(s) && t in s.works && s.works[t].Call? && s.works[t].pc.Joining?
    ensures var r := Step(s, SessionReplied(t, false));
            r.retired == s.retired + {s.works[t].pc.conn} && s.works[t].key !in r.table && r.sent == s.sent
  {
    assert WorkOk(s, s.works[t]);
  }

  /** While a reset deletes the grant and drops connections no call of its servers is in progress, and it leaves none of them cached. */
  lemma {:induction false} ResetsAreExclusive(evs: seq<Event>, t: nat, u: nat)
    requires AllProper(evs)
    requires var s := Exec(evs); t in s.works && s.works[t].Reset? && !s.works[t].at.Locking?
    ensures var s := Exec(evs);
            && (u in s.works && s.works[u].Call? && s.works[u].key in s.works[t].keys ==> s.works[u].pc.WantsLock?)
            && (s.works[t].at == Popping(|s.works[t].keys|) ==> forall k :: k in s.works[t].keys ==> k !in s.table)
  {
    ExecKeeps(evs);
    var s := Exec(evs);
    var keys := s.works[t].keys;
    assert WorkOk(s, s.works[t]);
    forall k | k in keys ensures k in Holds(s.works[t]) {
      var i :| 0 <= i < |keys| && keys[i] == k;
    }
    if u in s.works && s.works[u].Call? && s.works[u].key in keys && !s.works[u].pc.WantsLock? {
      assert s.works[u].key in Holds(s.works[u]) * Holds(s.works[t]);
      OneCallAtATime(evs, u, t);
    }
  }

  // ---------- Only allowed calls are sent ----------

  // The answer that sends a call: its checks passed, and its connection is still open.
  ghost predicate Releases(s: State, ev: Event, d: Send) {
    && ev == Checked(d.call, true)
    && d.call in s.works && s.works[d.call] == Call(d.key, Ready(d.digest, d.conn))
    && d.conn < |s.conns| && s.conns[d.conn].open
  }

  lemma CallsSendExactly(s: State, t: nat, ev: Event)
    requires !ev.CallBegins? && !ev.ResetBegins? && !ev.ReapBegins? && !ev.TransportEnded? && !ev.Interrupted?
    requires t in s.works && s.works[t].Call? && ev.work == t
    ensures CallStep(s, t, s.works[t].pc, ev).sent == s.sent <==> forall d :: !Releases(s, ev, d)
    ensures forall d :: Releases(s, ev, d) ==> CallStep(s, t, s.works[t].pc, ev).sent == s.sent + [d]
  {
    if s.works[t].pc.Ready? && ev == Checked(t, true) && IsOpen(s, s.works[t].pc.conn) {
      var d := Send(t, s.works[t].key, s.works[t].pc.digest, s.works[t].pc.conn);
      assert Releases(s, ev, d);
      assert |CallStep(s, t, s.works[t].pc, ev).sent| == |s.sent| + 1;
    }
  }

  /** A step sends a call exactly if it is the answer that releases it, and it then sends that one call. */
  lemma StepSendsExactly(s: State, ev: Event)
    ensures Step(s, ev).sent == s.sent <==> forall d :: !Releases(s, ev, d)
    ensures forall d :: Releases(s, ev, d) ==> Step(s, ev).sent == s.sent + [d]
  {
    match ev
    case CallBegins(_) =>
    case ResetBegins(_) =>
    case ReapBegins(_) =>
    case TransportEnded(_) =>
    case Interrupted(t) =>
    case _ =>
      if ev.work in s.works {
        if s.works[ev.work].Call? {
          CallsSendExactly(s, ev.work, ev);
        } else {
          OthersSendNothing(s, ev);
        }
      }
  }

  lemma OthersSendNothing(s: State, ev: Event)
    requires !ev.CallBegins? && !ev.ResetBegins? && !ev.ReapBegins? && !ev.TransportEnded?
    requires ev.work in s.works && !s.works[ev.work].Call?
    ensures WorkStep(s, ev.work, ev).sent == s.sent
  {
  }

  // The event at `j` released the `i`th send of this run.
  ghost predicate ReleasedAt(evs: seq<Event>, i: nat, j: nat) {
    && i < |Exec(evs).sent| && j < |evs|
    && Releases(Exec(evs[..j]), evs[j], Exec(evs).sent[i])
    && Exec(evs[..j]).sent == Exec(evs).sent[..i]
  }

  lemma ReleaseStays(evs: seq<Event>, i: nat, j: nat)
    requires evs != [] && ReleasedAt(evs[..|evs| - 1], i, j)
    ensures ReleasedAt(evs, i, j)
  {
    var n := |evs| - 1;
    var s := Exec(evs[..n]);
    StepSendsExactly(s, evs[n]);
    assert evs[..n][..j] == evs[..j];
    if d :| Releases(s, evs[n], d) {
      assert Exec(evs).sent == s.sent + [d];
    }
    assert Exec(evs).sent[..i] == s.sent[..i];
  }

  /** In every run, each remote call was released by the answer that its own checks passed, and in this order. */
  lemma {:induction false} SendsWereReleased(evs: seq<Event>, i: nat)
    requires i < |Exec(evs).sent|
    ensures exists j :: 0 <= j < |evs| && evs[j] == Checked(Exec(evs).sent[i].call, true)
                        && Releases(Exec(evs[..j]), evs[j], Exec(evs).sent[i])
                        && Exec(evs[..j]).sent == Exec(evs).sent[..i]
    decreases |evs|
  {
    if evs != [] {
      var n := |evs| - 1;
      var s := Exec(evs[..n]);
      StepSendsExactly(s, evs[n]);
      if i < |s.sent| {
        SendsWereReleased(evs[..n], i);
        var j :| 0 <= j < n && Releases(Exec(evs[..n][..j]), evs[j], s.sent[i]) && Exec(evs[..n][..j]).sent == s.sent[..i];
        assert ReleasedAt(evs[..n], i, j);
        ReleaseStays(evs, i, j);
      } else {
        var d :| Releases(s, evs[n], d);
        assert Exec(evs).sent == s.sent + [d];
        assert Exec(evs).sent[..i] == s.sent;
      }
    }
  }

  /** A call that is not allowed sends nothing, ends, and releases its lock. */
  lemma RefusedCallsEnd(s: State, t: nat)
    requires Inv(s) && t in s.works && s.works[t].Call? && s.works[t].pc.Ready?
    ensures var r := Step(s, Checked(t, false));
            && r.sent == s.sent && r.table == s.table && r.conns == s.conns && r.retired == s.retired
            && s.works[t].key in s.locks && r.locks == s.locks - {s.works[t].key} && r.works == s.works - {t}
  {
    assert Owns(s, t, s.works[t].key);
  }

  /** A call that is allowed while its connection is open is sent, once, over that connection. */
  lemma AllowedCallsAreSent(s: State, t: nat)
    requires Inv(s) && t in s.works && s.works[t].Call? && s.works[t].pc.Ready?
    requires s.conns[s.works[t].pc.conn].open
    ensures var r := Step(s, Checked(t, true));
            && r.sent == s.sent + [Send(t, s.works[t].key, s.works[t].pc.digest, s.works[t].pc.conn)]
            && t in r.works && r.works[t] == Call(s.works[t].key, Sending(s.works[t].pc.digest, s.works[t].pc.conn))
  {
    assert WorkOk(s, s.works[t]);
  }

  // ---------- Which connection a call uses ----------

  // A cached connection that was opened with these headers and whose transport has not ended.
  predicate Reusable(s: State, key: Key, digest: string) {
    key in s.table && s.table[key] < |s.conns| && s.conns[s.table[key]].digest == digest && s.conns[s.table[key]].open
  }

  // The next work is a call that holds its lock.
  function Under(s: State, key: Key, pc: Pc): State {
    s.(works := s.works[s.next := Call(key, pc)], locks := s.locks[key := s.next], next := s.next + 1)
  }

  function WithOpened(s: State, key: Key, digest: string): State {
    s.(table := s.table[key := |s.conns|], conns := s.conns + [Connection(key, digest, true)])
  }

  lemma Overwritten<V>(m: map<nat, V>, k: nat, a: V, b: V)
    ensures m[k := a][k := b] == m[k := b] && m[k := a] - {k} == m - {k}
  {
  }

  lemma CallTakesItsLock(s: State, key: Key)
    requires key !in s.locks
    ensures Step(Step(s, CallBegins(key)), LockTaken(s.next)) == Under(s, key, Authorizing)
  {
    Overwritten(s.works, s.next, Call(key, WantsLock), Call(key, Authorizing));
  }

  lemma CallReuses(s: State, key: Key, digest: string)
    requires Reusable(s, key, digest)
    ensures Step(Under(s, key, Authorizing), HeadersReplied(s.next, Some(digest))) == Under(s, key, Joining(digest, s.table[key]))
  {
    Overwritten(s.works, s.next, Call(key, Authorizing), Call(key, Joining(digest, s.table[key])));
  }

  lemma CallGivesUpTheOld(s: State, key: Key, digest: string)
    requires TableOk(s) && key in s.table && !Reusable(s, key, digest)
    ensures Step(Under(s, key, Authorizing), HeadersReplied(s.next, Some(digest))) == Under(Pop(s, key), key, Closing(digest))
  {
    Overwritten(s.works, s.next, Call(key, Authorizing), Call(key, Closing(digest)));
  }

  lemma CallOpens(s: State, key: Key, digest: string)
    requires key !in s.table && |s.table| < MAX_CONNECTIONS
    ensures Step(Under(s, key, Authorizing), HeadersReplied(s.next, Some(digest))) ==
            Under(WithOpened(s, key, digest), key, Joining(digest, |s.conns|))
    ensures Step(Under(s, key, Closing(digest)), CloseReplied(s.next)) ==
            Under(WithOpened(s, key, digest), key, Joining(digest, |s.conns|))
  {
    Overwritten(s.works, s.next, Call(key, Authorizing), Call(key, Joining(digest, |s.conns|)));
    Overwritten(s.works, s.next, Call(key, Closing(digest)), Call(key, Joining(digest, |s.conns|)));
  }

  lemma CallSends(s: State, key: Key, digest: string, conn: nat)
    requires IsOpen(s, conn)
    ensures Step(Under(s, key, Joining(digest, conn)), SessionReplied(s.next, true)) == Under(s, key, Ready(digest, conn))
    ensures Step(Under(s, key, Ready(digest, conn)), Checked(s.next, true)) ==
            Under(s.(sent := s.sent + [Send(s.next, key, digest, conn)]), key, Sending(digest, conn))
  {
    Overwritten(s.works, s.next, Call(key, Joining(digest, conn)), Call(key, Ready(digest, conn)));
    Overwritten(s.works, s.next, Call(key, Ready(digest, conn)), Call(key, Sending(digest, conn)));
  }

  lemma CallReturns(s: State, key: Key, digest: string, conn: nat)
    requires s.next !in s.works && key !in s.locks
    ensures Step(Under(s, key, Sending(digest, conn)), ResultReplied(s.next, Returned)) == s.(next := s.next + 1)
  {
    Overwritten(s.works, s.next, Call(key, Sending(digest, conn)), Call(key, Sending(digest, conn)));
    assert s.works - {s.next} == s.works;
    assert s.locks[key := s.next] - {key} == s.locks;
  }

  // A call that takes its lock and gets these headers.
  function Authorized(s: State, key: Key, digest: string): State {
    Step(Step(Step(s, CallBegins(key)), LockTaken(s.next)), HeadersReplied(s.next, Some(digest)))
  }

  // From a session to the result.
  function Completed(s: State, t: nat): State {
    Step(Step(Step(s, SessionReplied(t, true)), Checked(t, true)), ResultReplied(t, Returned))
  }

  lemma JoinedCallsComplete(s: State, key: Key, digest: string, conn: nat)
    requires IsOpen(s, conn) && s.next !in s.works && key !in s.locks
    ensures Completed(Under(s, key, Joining(digest, conn)), s.next) ==
            s.(sent := s.sent + [Send(s.next, key, digest, conn)], next := s.next + 1)
  {
    CallSends(s, key, digest, conn);
    CallReturns(s.(sent := s.sent + [Send(s.next, key, digest, conn)]), key, digest, conn);
  }

  lemma DroppedEntry(table: map<Key, nat>, key: Key)
    requires key in table
    ensures |table - {key}| == |table| - 1
  {
    assert (table - {key}).Keys == table.Keys - {key};
    assert |table - {key}| == |(table - {key}).Keys| && |table| == |table.Keys|;
  }

  lemma ReplacedCallsComplete(s: State, key: Key, digest: string)
    requires Inv(s) && key !in s.locks && key in s.table && !Reusable(s, key, digest)
    ensures Completed(Step(Authorized(s, key, digest), CloseReplied(s.next)), s.next) ==
            s.(sent := s.sent + [Send(s.next, key, digest, |s.conns|)], next := s.next + 1,
               table := s.table[key := |s.conns|], conns := s.conns + [Connection(key, digest, true)],
               retired := s.retired + {s.table[key]})
  {
    var p := Pop(s, key);
    assert s.next !in s.works;
    assert Authorized(s, key, digest) == Under(p, key, Closing(digest)) by {
      CallTakesItsLock(s, key);
      CallGivesUpTheOld(s, key, digest);
    }
    OpensAfterClosing(s, key, digest);
    JoinedCallsComplete(WithOpened(p, key, digest), key, digest, |s.conns|);
    assert (s.table - {key})[key := |s.conns|] == s.table[key := |s.conns|];
  }

  lemma OpensAfterClosing(s: State, key: Key, digest: string)
    requires TableOk(s) && key in s.table
    ensures var p := Pop(s, key);
            Step(Under(p, key, Closing(digest)), CloseReplied(s.next)) ==
            Under(WithOpened(p, key, digest), key, Joining(digest, |s.conns|))
  {
    DroppedEntry(s.table, key);
    CallOpens(Pop(s, key), key, digest);
  }

  /**
   * With a free lock, an allowed call goes through and leaves the lock free.  It reuses the cached
   * connection exactly if that was opened with the same headers and is still open, and otherwise
   * opens a connection of its own, which it leaves cached.
   */
  lemma UncontendedCallsComplete(s: State, key: Key, digest: string)
    requires Inv(s) && key !in s.locks && (key in s.table || |s.table| < 256)
    ensures var s1 := Authorized(s, key, digest);
            var closes := key in s.table && !Reusable(s, key, digest);
            var r := Completed(if closes then Step(s1, CloseReplied(s.next)) else s1, s.next);
            var conn := if Reusable(s, key, digest) then s.table[key] else |s.conns|;
            && r.sent == s.sent + [Send(s.next, key, digest, conn)]
            && r.works == s.works && r.locks == s.locks && r.table == s.table[key := conn]
            && r.conns == (if Reusable(s, key, digest) then s.conns else s.conns + [Connection(key, digest, true)])
            && r.retired == if closes then s.retired + {s.table[key]} else s.retired
  {
    assert s.next !in s.works;
    if Reusable(s, key, digest) {
      CallTakesItsLock(s, key);
      CallReuses(s, key, digest);
      JoinedCallsComplete(s, key, digest, s.table[key]);
    } else if key in s.table {
      ReplacedCallsComplete(s, key, digest);
    } else {
      CallTakesItsLock(s, key);
      CallOpens(s, key, digest);
      JoinedCallsComplete(WithOpened(s, key, digest), key, digest, |s.conns|);
    }
  }

  /** At the capacity a call that would open a connection ends without one, and leaves its lock free. */
  lemma CallsEndAtCapacity(s: State, key: Key, digest: string)
    requires Inv(s) && key !in s.locks && key !in s.table && |s.table| >= 256
    ensures Authorized(s, key, digest) == s.(next := s.next + 1)
  {
    CallTakesItsLock(s, key);
    assert s.next !in s.works;
    Overwritten(s.works, s.next, Call(key, Authorizing), Call(key, Authorizing));
    assert s.works - {s.next} == s.works;
    assert s.locks[key := s.next] - {key} == s.locks;
  }

  /** While another work holds the lock of its server and user, a call waits. */
  lemma ContendedCallsWait(s: State, t: nat)
    requires t in s.works && s.works[t].Call? && s.works[t].pc.WantsLock? && s.works[t].key in s.locks
    ensures Step(s, LockTaken(t)) == s
  {
  }

  /** A call without headers opens nothing and sends nothing, and releases its lock. */
  lemma UnauthorizedCallsEnd(s: State, t: nat)
    requires t in s.works && s.works[t].Call? && s.works[t].pc.Authorizing?
    ensures Step(s, HeadersReplied(t, None)) == s.(works := s.works - {t}, locks := s.locks - {s.works[t].key})
  {
  }

  /**
   * An interrupted call gives its connection up exactly if it was waiting for the session or for the
   * result, and in any case ends and leaves no lock behind.
   */
  lemma InterruptedCallsLetGo(s: State, t: nat)
    requires Inv(s) && t in s.works && s.works[t].Call?
    ensures var r := Step(s, Interrupted(t));
            var pc := s.works[t].pc;
            && t !in r.works && (forall k :: k in r.locks ==> r.locks[k] != t) && r.sent == s.sent
            && (pc.Joining? || pc.Sending? ==> s.works[t].key !in r.table && r.retired == s.retired + {pc.conn})
            && (!pc.Joining? && !pc.Sending? ==> r.table == s.table && r.retired == s.retired)
  {
    assert WorkOk(s, s.works[t]);
    EndedHoldNothing(s, t);
  }

  lemma EndedHoldNothing(s: State, t: nat)
    requires Inv(s) && t in s.works
    ensures t !in Step(s, Interrupted(t)).works
    ensures forall k :: k in Step(s, Interrupted(t)).locks ==> Step(s, Interrupted(t)).locks[k] != t
  {
    var r := Step(s, Interrupted(t));
    InterruptKeeps(s, t);
    assert r == InterruptStep(s, t);
    forall k | k in r.locks ensures r.locks[k] != t {
      assert Owns(r, r.locks[k], k);
    }
  }

  // The work is over and holds no lock, and connections and calls are as they were.
  ghost predicate Ended(s: State, r: State, t: nat) {
    && t !in r.works && (forall k :: k in r.locks ==> r.locks[k] != t)
    && r.table == s.table && r.retired == s.retired && r.sent == s.sent
  }

  lemma EndEnds(s: State, t: nat)
    requires Inv(s) && t in s.works
    ensures Ended(s, End(s, t), t)
  {
    var r := End(s, t);
    EndKeeps(s, t);
    forall k | k in r.locks ensures r.locks[k] != t {
      assert Owns(r, r.locks[k], k);
    }
  }

  /** A reset is refused where a lock is held, and ends if its grant is not deleted; either way it drops no connection. */
  lemma FailedResetsDropNothing(s: State, t: nat, keys: seq<Key>, n: nat)
    requires Inv(s) && t in s.works
    ensures s.works[t] == Reset(keys, Locking(n)) ==>
              if n < |keys| && keys[n] in s.locks then Ended(s, Step(s, LockRefused(t)), t) else Step(s, LockRefused(t)) == s
    ensures s.works[t] == Reset(keys, Deleting) ==> Ended(s, Step(s, DeleteReplied(t, false)), t)
  {
    EndEnds(s, t);
  }

  /** A reset takes one lock after the other, none that is held, and goes on only under all of them. */
  lemma ResetsTakeEveryLockFirst(s: State, t: nat, keys: seq<Key>, n: nat)
    requires t in s.works && s.works[t] == Reset(keys, Locking(n))
    ensures var r := Step(s, LockTaken(t));
            && r.table == s.table && r.retired == s.retired
            && (n < |keys| && keys[n] in s.locks ==> r == s)
            && (n < |keys| && keys[n] !in s.locks ==> r.locks == s.locks[keys[n] := t] && r.works[t] == Reset(keys, Locking(n + 1)))
            && (n >= |keys| ==> r.locks == s.locks && r.works[t] == Reset(keys, Deleting))
  {
    assert Step(s, LockTaken(t)) == NextLock(s, t, keys, n);
  }

  /** Only once the grant is deleted does it begin to drop connections. */
  lemma ResetsDeleteFirst(s: State, t: nat, keys: seq<Key>)
    requires t in s.works && s.works[t] == Reset(keys, Deleting)
    ensures var r := Step(s, DeleteReplied(t, true));
            r.table == s.table && r.locks == s.locks && t in r.works && r.works[t] == Reset(keys, Popping(0))
  {
    assert Step(s, DeleteReplied(t, true)) == SetAt(s, t, Popping(0));
  }

  /** It then drops the connection of each server in turn, and no other, and ends. */
  lemma ResetsDropTheirConnections(s: State, t: nat, keys: seq<Key>, n: nat)
    requires Inv(s) && t in s.works && s.works[t] == Reset(keys, Popping(n))
    ensures var r := Step(s, CloseReplied(t));
            if n < |keys| then
              r.table == s.table - {keys[n]} && r.locks == s.locks && t in r.works && r.works[t] == Reset(keys, Popping(n + 1))
            else Ended(s, r, t)
  {
    assert Step(s, CloseReplied(t)) == NextPop(s, t, keys, n);
    if n >= |keys| {
      EndEnds(s, t);
    }
  }

  /** The reaper drops the connection that it saw idle, and no other, even one cached since. */
  lemma ReaperDropsWhatItSaw(s: State, t: nat, key: Key, conn: nat)
    requires t in s.works && s.works[t] == Reap(key, conn, false) && key !in s.locks
    ensures var r := Step(s, LockTaken(t));
            && r.table == (if key in s.table && s.table[key] == conn then s.table - {key} else s.table)
            && r.sent == s.sent
            && (key in s.table && s.table[key] == conn <==> t in r.works)
  {
  }

  // ---------- The table in place ----------

  // Entries pair a digest with a connection, as they are cached.
  class MCPManager {
    var connections: map<Key, (string, nat)>
    var transports: seq<Connection>

    ghost predicate Valid() reads this {
      && |connections| <= MAX_CONNECTIONS
      && forall k :: k in connections ==>
           connections[k].1 < |transports| && transports[connections[k].1].key == k && transports[connections[k].1].digest == connections[k].0
    }

    constructor ()
      ensures Valid() && connections == map[] && transports == []
    {
      connections, transports := map[], [];
    }

    // The cached connection, unless its headers changed or its transport ended: then it is dropped.
    method Find(key: Key, digest: string) returns (conn: Option<nat>, stale: Option<nat>)
      requires Valid()
      modifies this`connections
      ensures Valid()
      ensures conn.Some? ==> stale.None? && connections == old(connections) && key in connections && connections[key] == (digest, conn.value)
      ensures conn.Some? ==> transports[conn.value].open && transports[conn.value].key == key && transports[conn.value].digest == digest
      ensures conn.None? ==> key !in connections && connections == old(connections) - {key}
      ensures stale.Some? <==> conn.None? && key in old(connections)
      ensures stale.Some? ==> stale.value == old(connections)[key].1 && (old(connections)[key].0 != digest || !transports[stale.value].open)
    {
      if key !in connections {
        assert connections - {key} == connections;
        return None, None;
      }
      var (cached, id) := connections[key];
      if cached != digest || !transports[id].open {
        Drop(key);
        return None, Some(id);
      }
      conn, stale := Some(id), None;
    }

    method Drop(key: Key)
      requires Valid()
      modifies this`connections
      ensures Valid() && connections == old(connections) - {key}
    {
      connections := connections - {key};
      assert connections.Keys == old(connections).Keys - {key};
      assert |connections| == |connections.Keys| && |old(connections)| == |old(connections).Keys|;
    }

    // Opens and caches a connection in the same step, so the capacity cannot be overrun.
    method Open(key: Key, digest: string) returns (conn: Option<nat>)
      requires Valid() && key !in connections
      modifies this
      ensures Valid()
      ensures conn.None? <==> |old(connections)| >= MAX_CONNECTIONS
      ensures conn.None? ==> connections == old(connections) && transports == old(transports)
      ensures conn.Some? ==> transports == old(transports) + [Connection(key, digest, true)] && conn.value == |old(transports)|
      ensures conn.Some? ==> connections == old(connections)[key := (digest, conn.value)]
    {
      if |connections| >= MAX_CONNECTIONS {
        return None;
      }
      conn := Some(|transports|);
      transports := transports + [Connection(key, digest, true)];
      connections := connections[key := (digest, conn.value)];
      assert |connections.Keys| == |old(connections).Keys| + 1;
    }
  }
}
