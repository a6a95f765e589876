/**
 * The OAuth grant of one user for one Google service, shared by several processes.
 *
 * A grant is read, refreshed, replaced and deleted under one lock that all processes share; each
 * process also serializes its own callers.  The code between two awaits is one step.  A call may
 * raise or be cut off at every await, and its last command may still have taken effect.
 */
module GoogleOAuth {
  import opened Wrappers

  // ---------- Grants ----------

  // The empty string stands for an absent field.  `consent` numbers the browser authorization that
  // a grant descends from; it is not stored.
  datatype Grant = Grant(access: string, refresh: string, scope: string, expiresAt: int, consent: nat)

  datatype Token = Token(access: string, refresh: string, scope: string, expiresIn: int)

  function Either(a: string, b: string): string { if a != "" then a else b }

  function FromToken(token: Token, refresh: string, scope: string, now: int, consent: nat): Grant {
    Grant(token.access, Either(token.refresh, refresh), Either(token.scope, scope), now + token.expiresIn, consent)
  }

  predicate Fresh(g: Option<Grant>, now: int) {
    g.Some? && g.value.access != "" && g.value.expiresAt > now + 60
  }

  // ---------- Calls in progress ----------

  datatype Job =
    | Access(emit: bool)               // read, and refresh when stale
    | SaveConsent(token: Token)        // store what a person just authorized
    | Invalidate(rejected: string)
    | Reset

  datatype Pc =
    | WantsLocal(job: Job)
    | WantsShared(job: Job)
    | Reading(job: Job)
    | Posting(saved: Grant, emit: bool)
    | Writing(grant: Grant, job: Job)
    | Deleting(job: Job)
    | AwaitingPerson(created: int)
    | Answered(code: string)           // "" when the person declined
    | Exchanging

  datatype Call = Call(process: nat, pc: Pc)

  datatype State = State(
    stored: Option<Grant>,
    holder: Option<nat>,               // the call that holds the shared lock
    local: map<nat, nat>,              // for each process, the call that holds its own lock
    calls: map<nat, Call>,
    next: nat,
    now: int,
    consents: nat,                     // browser authorizations stored so far
    posts: nat,                        // refreshes posted so far
    results: map<nat, string>)         // access tokens returned

  function Initial(stored: Option<Grant>, now: int): State {
    State(if stored.Some? then Some(stored.value.(consent := 0)) else None, None, map[], map[], 0, now, 0, 0, map[])
  }

  datatype Response = Success(token: Token) | InvalidGrant | Unavailable

  datatype Event =
    | Tick(seconds: nat)
    | CallAccess(process: nat, emit: bool)
    | CallInvalidate(process: nat, rejected: string)
    | CallReset(process: nat)
    | TakeLocal(call: nat)
    | TakeShared(call: nat)
    | ReadReplied(call: nat)
    | PostReplied(call: nat, response: Response)
    | WriteReplied(call: nat)
    | DeleteReplied(call: nat)
    | CalledBack(call: nat, code: string)
    | Resumed(call: nat)
    | ExchangeReplied(call: nat, token: Option<Token>)
    | Raised(call: nat, applied: bool, released: bool)   // an exception, a timeout or a crash
    | DeadLeaseExpires
    | LeaseLapses

  // ---------- Steps ----------

  // No time passes, and every call but one stays as it is.
  ghost predicate OnlyMoves(s: State, r: State, t: nat) {
    r.now == s.now && forall u :: u != t ==> (u in r.calls <==> u in s.calls) && (u in s.calls ==> r.calls[u] == s.calls[u])
  }

  // A result that a step adds or replaces is the access token then stored.
  ghost predicate ReturnsStored(s: State, r: State) {
    && (forall t :: t in s.results ==> t in r.results)
    && forall t :: t in r.results && (t !in s.results || r.results[t] != s.results[t]) ==>
         r.stored.Some? && r.results[t] == r.stored.value.access
  }

  function SetPc(s: State, t: nat, pc: Pc): State
    requires t in s.calls
  {
    s.(calls := s.calls[t := s.calls[t].(pc := pc)])
  }

  function FreeLocal(s: State, t: nat): (r: State)
    requires t in s.calls
    ensures r == s.(local := r.local)
  {
    var p := s.calls[t].process;
    if p in s.local && s.local[p] == t then s.(local := s.local - {p}) else s
  }

  function FreeShared(s: State, t: nat): (r: State)
    ensures r == s.(holder := r.holder)
  {
    if s.holder == Some(t) then s.(holder := None) else s
  }

  function Finish(s: State, t: nat): State
    requires t in s.calls
  {
    FreeShared(FreeLocal(s, t), t).(calls := s.calls - {t})
  }

  function Return(s: State, t: nat, access: string): State
    requires t in s.calls
  {
    Finish(s, t).(results := s.results[t := access])
  }

  function Begin(s: State, process: nat, pc: Pc): State {
    s.(calls := s.calls[s.next := Call(process, pc)], next := s.next + 1)
  }

  // Browser authorization starts after the shared lock is released; the local lock stays held.
  function AskPerson(s: State, t: nat, emit: bool): State
    requires t in s.calls
  {
    if emit then SetPc(FreeShared(s, t), t, AwaitingPerson(s.now)) else Finish(s, t)
  }

  function ReadStep(s: State, t: nat, job: Job): (r: State)
    requires t in s.calls
    ensures ReturnsStored(s, r)
    ensures OnlyMoves(s, r, t) && r.stored == s.stored && r.consents == s.consents
  {
    match job
    case Access(emit) =>
      if Fresh(s.stored, s.now) then Return(s, t, s.stored.value.access)
      else if s.stored.Some? && s.stored.value.refresh != "" then
        SetPc(s, t, Posting(s.stored.value, emit)).(posts := s.posts + 1)
      else AskPerson(s, t, emit)
    case Invalidate(rejected) =>
      if s.stored.Some? && s.stored.value.access == rejected then
        SetPc(s, t, Writing(s.stored.value.(expiresAt := 0), job))
      else Finish(s, t)
    case _ => s
  }

  function TakeSharedStep(s: State, t: nat, job: Job): (r: State)
    requires t in s.calls
    ensures OnlyMoves(s, r, t) && r.stored == s.stored && r.results == s.results && r.posts == s.posts
  {
    var r := s.(holder := Some(t));
    match job
    case SaveConsent(token) =>
      if token.access == "" then Finish(s, t)
      else SetPc(r, t, Writing(FromToken(token, "", "", s.now, 0), job))
    case Reset => SetPc(r, t, Deleting(job))
    case _ => SetPc(r, t, Reading(job))
  }

  function PostStep(s: State, t: nat, saved: Grant, emit: bool, response: Response): (r: State)
    requires t in s.calls
    ensures OnlyMoves(s, r, t) && r.stored == s.stored && r.results == s.results && r.posts == s.posts
  {
    match response
    case Success(token) =>
      if token.access == "" then Finish(s, t)
      else SetPc(s, t, Writing(FromToken(token, saved.refresh, saved.scope, s.now, saved.consent), Access(emit)))
    case InvalidGrant => SetPc(s, t, Deleting(Access(emit)))
    case Unavailable => Finish(s, t)
  }

  function Written(s: State, grant: Grant, job: Job): State {
    if job.SaveConsent? then s.(stored := Some(grant.(consent := s.consents + 1)), consents := s.consents + 1)
    else s.(stored := Some(grant))
  }

  function WriteStep(s: State, t: nat, grant: Grant, job: Job): (r: State)
    requires t in s.calls
    ensures ReturnsStored(s, r)
    ensures OnlyMoves(s, r, t) && r.posts == s.posts && r.stored == Written(s, grant, job).stored
  {
    if job.Invalidate? then Finish(Written(s, grant, job), t) else Return(Written(s, grant, job), t, grant.access)
  }

  function DeleteStep(s: State, t: nat, job: Job): (r: State)
    requires t in s.calls
    ensures OnlyMoves(s, r, t) && r.results == s.results && r.posts == s.posts
  {
    var r := s.(stored := None);
    if job.Access? then AskPerson(r, t, job.emit) else Finish(r, t)
  }

  // The effect that the command in flight may still have.
  function Applied(s: State, pc: Pc): (r: State)
    ensures r == s.(stored := r.stored, consents := r.consents)
  {
    match pc
    case Writing(grant, job) => Written(s, grant, job)
    case Deleting(_) => s.(stored := None)
    case _ => s
  }

  function RaiseStep(s: State, t: nat, applied: bool, released: bool): (r: State)
    requires t in s.calls
    ensures OnlyMoves(s, r, t) && r.results == s.results && r.posts == s.posts
    ensures r.stored == if applied then Applied(s, s.calls[t].pc).stored else s.stored
  {
    var r := if applied then Applied(s, s.calls[t].pc) else s;
    var gone := FreeLocal(r, t).(calls := s.calls - {t});
    if released then FreeShared(gone, t) else gone
  }

  function Step(s: State, ev: Event): State {
    match ev
    case Tick(seconds) => s.(now := s.now + seconds)
    case CallAccess(process, emit) => Begin(s, process, WantsLocal(Access(emit)))
    case CallInvalidate(process, rejected) => Begin(s, process, WantsShared(Invalidate(rejected)))
    case CallReset(process) => if process in s.local then s else Begin(s, process, WantsLocal(Reset))
    case DeadLeaseExpires => if s.holder.Some? && s.holder.value !in s.calls then s.(holder := None) else s
    case LeaseLapses => s.(holder := None)
    case _ => if ev.call in s.calls then CallStep(s, ev.call, s.calls[ev.call].pc, ev) else s
  }

  function CallStep(s: State, t: nat, pc: Pc, ev: Event): (r: State)
    requires t in s.calls
    ensures ReturnsStored(s, r)
    ensures OnlyMoves(s, r, t)
  {
    match (ev, pc)
    case (TakeLocal(_), WantsLocal(job)) =>
      if s.calls[t].process in s.local then s
      else SetPc(s, t, WantsShared(job)).(local := s.local[s.calls[t].process := t])
    case (TakeShared(_), WantsShared(job)) => if s.holder.Some? then s else TakeSharedStep(s, t, job)
    case (ReadReplied(_), Reading(job)) => ReadStep(s, t, job)
    case (PostReplied(_, response), Posting(saved, emit)) => PostStep(s, t, saved, emit, response)
    case (WriteReplied(_), Writing(grant, job)) => WriteStep(s, t, grant, job)
    case (DeleteReplied(_), Deleting(job)) => DeleteStep(s, t, job)
    case (CalledBack(_, code), AwaitingPerson(created)) =>
      if s.now - created > 600 then s else SetPc(s, t, Answered(code))
    case (Resumed(_), Answered(code)) => if code == "" then Finish(s, t) else SetPc(s, t, Exchanging)
    case (ExchangeReplied(_, token), Exchanging) =>
      if token.None? then Finish(s, t) else SetPc(s, t, WantsShared(SaveConsent(token.value)))
    case (Raised(_, applied, released), _) => RaiseStep(s, t, applied, released)
    case _ => s
  }

  function Exec(s: State, evs: seq<Event>): State
    decreases |evs|
  {
    if evs == [] then s else Step(Exec(s, evs[..|evs| - 1]), evs[|evs| - 1])
  }

  // ---------- What every step keeps ----------

  predicate Critical(pc: Pc) { pc.Reading? || pc.Posting? || pc.Writing? || pc.Deleting? }

  predicate NeedsLocal(pc: Pc) {
    match pc
    case WantsLocal(_) => false
    case WantsShared(job) => !job.Invalidate?
    case Reading(job) => !job.Invalidate?
    case Writing(_, job) => !job.Invalidate?
    case _ => true
  }

  // What a call knows of the stored grant while it holds the shared lock.
  ghost predicate Knows(pc: Pc, stored: Option<Grant>) {
    match pc
    case WantsLocal(job) => job.Access? || job.Reset?
    case Reading(job) => job.Access? || job.Invalidate?
    case Posting(saved, _) => stored == Some(saved) && saved.refresh != ""
    case Writing(grant, Access(_)) =>
      stored.Some? && stored.value.refresh != "" && grant.refresh != "" && grant.consent == stored.value.consent
    case Writing(grant, Invalidate(_)) => stored.Some? && grant == stored.value.(expiresAt := 0)
    case Writing(_, job) => job.SaveConsent?
    case Deleting(job) => job.Reset? || (job.Access? && stored.Some?)
    case _ => true
  }

  ghost predicate CallOk(s: State, t: nat)
    requires t in s.calls
  {
    var c := s.calls[t];
    && t < s.next
    && (Critical(c.pc) <==> s.holder == Some(t))
    && (NeedsLocal(c.pc) <==> c.process in s.local && s.local[c.process] == t)
    && Knows(c.pc, s.stored)
  }

  ghost predicate Inv(s: State) {
    && (forall t :: t in s.calls ==> CallOk(s, t))
    && (forall p :: p in s.local ==> s.local[p] in s.calls && s.calls[s.local[p]].process == p)
    && (s.holder.Some? ==> s.holder.value < s.next)
    && (s.stored.Some? ==> s.stored.value.consent == s.consents)
  }

  // A step of one call that leaves the other calls and what they know alone.
  ghost predicate Others(s: State, r: State, t: nat)
    requires t in s.calls
  {
    && (forall u :: u != t ==> (u in r.calls <==> u in s.calls) && (u in s.calls ==> r.calls[u] == s.calls[u]))
    && r.next == s.next
    && (forall p :: p in r.local ==> (p in s.local && r.local[p] == s.local[p])
                                     || (p !in s.local && r.local[p] == t && p == s.calls[t].process))
    && (forall p :: p in s.local && s.local[p] != t ==> p in r.local && r.local[p] == s.local[p])
    && (r.holder == s.holder || (s.holder.None? && r.holder == Some(t)) || (s.holder == Some(t) && r.holder.None?))
    && (r.stored == s.stored || s.holder == Some(t))
    && (r.stored.Some? ==> r.stored.value.consent == r.consents)
  }

  lemma OthersKeep(s: State, r: State, t: nat)
    requires Inv(s) && t in s.calls && Others(s, r, t)
    requires t in r.calls ==> CallOk(r, t) && r.calls[t].process == s.calls[t].process
    requires t !in r.calls ==> forall p :: p in r.local ==> r.local[p] != t
    ensures Inv(r)
  {
    forall u | u in r.calls && u != t ensures CallOk(r, u) {
      assert CallOk(s, u) && CallOk(s, t);
    }
    forall p | p in r.local ensures r.local[p] in r.calls && r.calls[r.local[p]].process == p {
      assert CallOk(s, t);
    }
    if r.holder.Some? {
      assert CallOk(s, t);
    }
  }

  lemma CriticalKeeps(s: State, t: nat, ev: Event)
    requires Inv(s) && t in s.calls && Critical(s.calls[t].pc) && !ev.Raised?
    ensures Inv(CallStep(s, t, s.calls[t].pc, ev))
  {
    match s.calls[t].pc {
      case Reading(job) =>
        if ev.ReadReplied? {
          ReadKeeps(s, t, job);
        }
      case Posting(_, _) =>
        if ev.PostReplied? {
          PostKeeps(s, t, ev.response);
        }
      case Writing(_, _) =>
        if ev.WriteReplied? {
          WriteKeeps(s, t);
        }
      case Deleting(_) =>
        if ev.DeleteReplied? {
          DeleteKeeps(s, t);
        }
    }
  }

  lemma WaitingKeeps(s: State, t: nat, ev: Event)
    requires Inv(s) && t in s.calls && !Critical(s.calls[t].pc) && !ev.Raised?
    ensures Inv(CallStep(s, t, s.calls[t].pc, ev))
  {
    assert CallOk(s, t);
    match (ev, s.calls[t].pc) {
      case (TakeShared(_), WantsShared(_)) => TakeSharedKeeps(s, t);
      case (TakeLocal(_), WantsLocal(_)) => TakeLocalKeeps(s, t);
      case (CalledBack(_, code), AwaitingPerson(_)) => MoveKeeps(s, t, Answered(code));
      case (Resumed(_), Answered(_)) => ResumeKeeps(s, t);
      case (ExchangeReplied(_, token), Exchanging) =>
        if token.Some? {
          MoveKeeps(s, t, WantsShared(SaveConsent(token.value)));
        } else {
          FinishKeeps(s, t);
        }
      case _ =>
    }
  }

  lemma CallKeeps(s: State, t: nat, ev: Event)
    requires Inv(s) && t in s.calls
    ensures Inv(CallStep(s, t, s.calls[t].pc, ev))
  {
    if ev.Raised? {
      RaiseKeeps(s, t, ev.applied, ev.released);
    } else if Critical(s.calls[t].pc) {
      CriticalKeeps(s, t, ev);
    } else {
      WaitingKeeps(s, t, ev);
    }
  }

  lemma MoveKeeps(s: State, t: nat, pc: Pc)
    requires Inv(s) && t in s.calls && NeedsLocal(s.calls[t].pc) && !Critical(s.calls[t].pc)
    requires NeedsLocal(pc) && !Critical(pc) && Knows(pc, s.stored)
    ensures Inv(SetPc(s, t, pc))
  {
    assert CallOk(s, t);
    OthersKeep(s, SetPc(s, t, pc), t);
  }

  lemma FinishKeeps(s: State, t: nat)
    requires Inv(s) && t in s.calls
    ensures Inv(Finish(s, t))
  {
    assert CallOk(s, t);
    OthersKeep(s, Finish(s, t), t);
  }

  lemma ResumeKeeps(s: State, t: nat)
    requires Inv(s) && t in s.calls && s.calls[t].pc.Answered?
    ensures Inv(CallStep(s, t, s.calls[t].pc, Resumed(t)))
  {
    if s.calls[t].pc.code == "" {
      FinishKeeps(s, t);
    } else {
      MoveKeeps(s, t, Exchanging);
    }
  }

  lemma TakeLocalKeeps(s: State, t: nat)
    requires Inv(s) && t in s.calls && s.calls[t].pc.WantsLocal?
    ensures Inv(CallStep(s, t, s.calls[t].pc, TakeLocal(t)))
  {
    assert CallOk(s, t);
    if s.calls[t].process !in s.local {
      OthersKeep(s, CallStep(s, t, s.calls[t].pc, TakeLocal(t)), t);
    }
  }

  // What a call in its critical section may leave behind keeps the descent from the newest consent.
  lemma AppliedDescends(s: State, t: nat)
    requires Inv(s) && t in s.calls
    ensures var r := Applied(s, s.calls[t].pc);
            && r == s.(stored := r.stored, consents := r.consents)
            && ((r.stored, r.consents) == (s.stored, s.consents) || s.holder == Some(t))
            && (r.stored.Some? ==> r.stored.value.consent == r.consents)
  {
    assert CallOk(s, t);
  }

  lemma GoneKeeps(s: State, r: State, t: nat, released: bool)
    requires Inv(s) && t in s.calls && r == s.(stored := r.stored, consents := r.consents)
    requires (r.stored, r.consents) == (s.stored, s.consents) || s.holder == Some(t)
    requires r.stored.Some? ==> r.stored.value.consent == r.consents
    ensures var gone := FreeLocal(r, t).(calls := r.calls - {t});
            Inv(if released then FreeShared(gone, t) else gone)
  {
    assert CallOk(s, t);
    var gone := FreeLocal(r, t).(calls := r.calls - {t});
    OthersKeep(s, if released then FreeShared(gone, t) else gone, t);
  }

  lemma RaiseKeeps(s: State, t: nat, applied: bool, released: bool)
    requires Inv(s) && t in s.calls
    ensures Inv(RaiseStep(s, t, applied, released))
  {
    AppliedDescends(s, t);
    GoneKeeps(s, if applied then Applied(s, s.calls[t].pc) else s, t, released);
  }

  lemma ReadKeeps(s: State, t: nat, job: Job)
    requires Inv(s) && t in s.calls && s.calls[t].pc == Reading(job)
    ensures Inv(ReadStep(s, t, job))
  {
    assert CallOk(s, t);
    match job {
      case Access(emit) =>
        if Fresh(s.stored, s.now) {
          OthersKeep(s, Return(s, t, s.stored.value.access), t);
        } else if s.stored.Some? && s.stored.value.refresh != "" {
          OthersKeep(s, SetPc(s, t, Posting(s.stored.value, emit)).(posts := s.posts + 1), t);
        } else {
          AskKeeps(s, t, emit);
        }
      case Invalidate(_) => OthersKeep(s, ReadStep(s, t, job), t);
      case _ => assert false;
    }
  }

  lemma AskKeeps(s: State, t: nat, emit: bool)
    requires Inv(s) && t in s.calls && Critical(s.calls[t].pc) && NeedsLocal(s.calls[t].pc)
    ensures Inv(AskPerson(s, t, emit))
  {
    assert CallOk(s, t);
    OthersKeep(s, AskPerson(s, t, emit), t);
  }

  lemma PostKeeps(s: State, t: nat, response: Response)
    requires Inv(s) && t in s.calls && s.calls[t].pc.Posting?
    ensures Inv(PostStep(s, t, s.calls[t].pc.saved, s.calls[t].pc.emit, response))
  {
    assert CallOk(s, t);
    OthersKeep(s, PostStep(s, t, s.calls[t].pc.saved, s.calls[t].pc.emit, response), t);
  }

  lemma WriteKeeps(s: State, t: nat)
    requires Inv(s) && t in s.calls && s.calls[t].pc.Writing?
    ensures Inv(WriteStep(s, t, s.calls[t].pc.grant, s.calls[t].pc.job))
  {
    assert CallOk(s, t);
    OthersKeep(s, WriteStep(s, t, s.calls[t].pc.grant, s.calls[t].pc.job), t);
  }

  lemma DeleteKeeps(s: State, t: nat)
    requires Inv(s) && t in s.calls && s.calls[t].pc.Deleting?
    ensures Inv(DeleteStep(s, t, s.calls[t].pc.job))
  {
    assert CallOk(s, t);
    OthersKeep(s, DeleteStep(s, t, s.calls[t].pc.job), t);
  }

  lemma LockKeeps(s: State, t: nat, pc: Pc)
    requires Inv(s) && t in s.calls && s.calls[t].pc.WantsShared? && s.holder.None?
    requires Critical(pc) && NeedsLocal(pc) == NeedsLocal(s.calls[t].pc) && Knows(pc, s.stored)
    ensures Inv(SetPc(s.(holder := Some(t)), t, pc))
  {
    assert CallOk(s, t);
    OthersKeep(s, SetPc(s.(holder := Some(t)), t, pc), t);
  }

  lemma TakeSharedKeeps(s: State, t: nat)
    requires Inv(s) && t in s.calls && s.calls[t].pc.WantsShared?
    ensures Inv(CallStep(s, t, s.calls[t].pc, TakeShared(t)))
  {
    if s.holder.None? {
      match s.calls[t].pc.job {
        case SaveConsent(token) =>
          if token.access == "" {
            FinishKeeps(s, t);
          } else {
            LockKeeps(s, t, Writing(FromToken(token, "", "", s.now, 0), s.calls[t].pc.job));
          }
        case Reset => LockKeeps(s, t, Deleting(Reset));
        case Access(_) => LockKeeps(s, t, Reading(s.calls[t].pc.job));
        case Invalidate(_) => LockKeeps(s, t, Reading(s.calls[t].pc.job));
      }
    }
  }

  lemma BeginKeeps(s: State, process: nat, pc: Pc)
    requires Inv(s) && !NeedsLocal(pc) && !Critical(pc) && Knows(pc, s.stored)
    ensures Inv(Begin(s, process, pc))
  {
    var r := Begin(s, process, pc);
    forall u | u in r.calls ensures CallOk(r, u) {
      if u != s.next {
        assert CallOk(s, u);
      }
    }
    forall p | p in r.local ensures r.local[p] in r.calls && r.calls[r.local[p]].process == p {
      assert CallOk(s, s.local[p]);
    }
  }

  lemma StepKeeps(s: State, ev: Event)
    requires Inv(s) && !ev.LeaseLapses?
    ensures Inv(Step(s, ev))
  {
    match ev {
      case CallAccess(process, emit) => BeginKeeps(s, process, WantsLocal(Access(emit)));
      case CallInvalidate(process, rejected) => BeginKeeps(s, process, WantsShared(Invalidate(rejected)));
      case CallReset(process) =>
        if process !in s.local {
          BeginKeeps(s, process, WantsLocal(Reset));
        }
      case Tick(_) =>
        assert forall u :: u in s.calls ==> CallOk(s, u) && CallOk(Step(s, ev), u);
      case DeadLeaseExpires =>
        assert forall u :: u in s.calls ==> CallOk(s, u) && CallOk(Step(s, ev), u);
      case LeaseLapses => assert false;
      case _ =>
        if ev.call in s.calls {
          CallKeeps(s, ev.call, ev);
        }
    }
  }

  ghost predicate NoLapse(evs: seq<Event>) { LeaseLapses !in evs }

  lemma {:induction false} ExecKeeps(stored: Option<Grant>, now: int, evs: seq<Event>)
    requires NoLapse(evs)
    ensures Inv(Exec(Initial(stored, now), evs))
    decreases |evs|
  {
    if evs != [] {
      ExecKeeps(stored, now, evs[..|evs| - 1]);
      StepKeeps(Exec(Initial(stored, now), evs[..|evs| - 1]), evs[|evs| - 1]);
    }
  }

  // ---------- What follows over whole runs ----------

  /** While a refresh is in flight the stored grant is the one it sent, and nothing else writes. */
  lemma RefreshesPostTheStoredGrant(stored: Option<Grant>, now: int, evs: seq<Event>, t: nat)
    requires NoLapse(evs)
    ensures var s := Exec(Initial(stored, now), evs);
            t in s.calls && s.calls[t].pc.Posting? ==>
              && s.stored == Some(s.calls[t].pc.saved) && s.stored.value.refresh != ""
              && forall u :: u in s.calls && Critical(s.calls[u].pc) ==> u == t
  {
    ExecKeeps(stored, now, evs);
    var s := Exec(Initial(stored, now), evs);
    if t in s.calls && s.calls[t].pc.Posting? {
      assert CallOk(s, t);
      assert forall u :: u in s.calls ==> CallOk(s, u);
    }
  }

  /** The stored grant always descends from the newest authorization: nothing restores an older one. */
  lemma NewestConsentPrevails(stored: Option<Grant>, now: int, evs: seq<Event>)
    requires NoLapse(evs)
    ensures var s := Exec(Initial(stored, now), evs); s.stored.Some? ==> s.stored.value.consent == s.consents
  {
    ExecKeeps(stored, now, evs);
  }

  lemma CallCreates(s: State, t: nat, ev: Event)
    requires t in s.calls && CallOk(s, t) && s.stored.None?
    ensures CallStep(s, t, s.calls[t].pc, ev).stored.Some? ==> CallStep(s, t, s.calls[t].pc, ev).consents == s.consents + 1
  {
    match s.calls[t].pc {
      case Writing(grant, job) =>
        assert WriteStep(s, t, grant, job).stored.Some? ==> WriteStep(s, t, grant, job).consents == s.consents + 1;
      case _ =>
    }
  }

  /** Only an authorization creates a grant: neither a refresh nor an invalidation undoes a reset. */
  lemma OnlyConsentCreates(stored: Option<Grant>, now: int, evs: seq<Event>, ev: Event)
    requires NoLapse(evs)
    ensures var s := Exec(Initial(stored, now), evs);
            s.stored.None? && Step(s, ev).stored.Some? ==> Step(s, ev).consents == s.consents + 1
  {
    ExecKeeps(stored, now, evs);
    var s := Exec(Initial(stored, now), evs);
    match ev {
      case Tick(_) =>
      case CallAccess(_, _) =>
      case CallInvalidate(_, _) =>
      case CallReset(_) =>
      case DeadLeaseExpires =>
      case LeaseLapses =>
      case _ =>
        if ev.call in s.calls && s.stored.None? {
          CallCreates(s, ev.call, ev);
        }
    }
  }

  // A refresh is only cut short, and its grant deleted, by the answer `invalid_grant`.
  ghost predicate Refused(evs: seq<Event>, t: nat) { PostReplied(t, InvalidGrant) in evs }

  lemma DeletionFollowsRefusal(s: State, ev: Event, t: nat)
    requires t in Step(s, ev).calls && Step(s, ev).calls[t].pc.Deleting? && Step(s, ev).calls[t].pc.job.Access?
    ensures ev == PostReplied(t, InvalidGrant) || (t in s.calls && s.calls[t].pc == Step(s, ev).calls[t].pc)
  {
  }

  lemma {:induction false} DeletionsWereRefused(stored: Option<Grant>, now: int, evs: seq<Event>, t: nat)
    ensures var s := Exec(Initial(stored, now), evs);
            t in s.calls && s.calls[t].pc.Deleting? && s.calls[t].pc.job.Access? ==> Refused(evs, t)
    decreases |evs|
  {
    if evs != [] {
      var n := |evs| - 1;
      DeletionsWereRefused(stored, now, evs[..n], t);
      var s := Exec(Initial(stored, now), evs[..n]);
      var r := Step(s, evs[n]);
      if t in r.calls && r.calls[t].pc.Deleting? && r.calls[t].pc.job.Access? {
        DeletionFollowsRefusal(s, evs[n], t);
      }
    }
  }

  predicate IsReset(ev: Event) { ev.CallReset? }

  lemma {:induction false} ResetsWereCalled(stored: Option<Grant>, now: int, evs: seq<Event>, t: nat)
    requires forall ev :: ev in evs ==> !IsReset(ev)
    ensures var s := Exec(Initial(stored, now), evs); t in s.calls ==> !Resets(s.calls[t].pc)
    decreases |evs|
  {
    if evs != [] {
      var n := |evs| - 1;
      ResetsWereCalled(stored, now, evs[..n], t);
      var s := Exec(Initial(stored, now), evs[..n]);
      assert !IsReset(evs[n]);
      ResetsArePassedOn(s, evs[n], t);
    }
  }

  predicate Resets(pc: Pc) {
    match pc
    case WantsLocal(job) => job.Reset?
    case WantsShared(job) => job.Reset?
    case Deleting(job) => job.Reset?
    case _ => false
  }

  lemma ResettingCall(s: State, ev: Event, t: nat)
    requires t in s.calls && !Resets(s.calls[t].pc)
    ensures t in CallStep(s, t, s.calls[t].pc, ev).calls ==> !Resets(CallStep(s, t, s.calls[t].pc, ev).calls[t].pc)
  {
    match s.calls[t].pc {
      case Reading(job) => assert t in ReadStep(s, t, job).calls ==> !Resets(ReadStep(s, t, job).calls[t].pc);
      case _ =>
    }
  }

  lemma ResetsArePassedOn(s: State, ev: Event, t: nat)
    requires !ev.CallReset?
    requires t in s.calls ==> !Resets(s.calls[t].pc)
    ensures t in Step(s, ev).calls ==> !Resets(Step(s, ev).calls[t].pc)
  {
    match ev {
      case Tick(_) =>
      case CallAccess(_, _) =>
      case CallReset(_) => assert false;
      case CallInvalidate(_, _) =>
      case DeadLeaseExpires =>
      case LeaseLapses =>
      case _ =>
        if ev.call == t && t in s.calls {
          ResettingCall(s, ev, t);
        }
    }
  }

  // A person's authorization brings a refresh token whenever it brings a token.
  ghost predicate Offline(ev: Event) {
    ev.ExchangeReplied? && ev.token.Some? ==> ev.token.value.refresh != ""
  }

  predicate OfflinePc(pc: Pc) {
    match pc
    case WantsLocal(job) => !job.SaveConsent?
    case WantsShared(SaveConsent(token)) => token.refresh != ""
    case Writing(grant, SaveConsent(_)) => grant.refresh != ""
    case _ => true
  }

  lemma OfflineCall(s: State, ev: Event, t: nat)
    requires t in s.calls && OfflinePc(s.calls[t].pc) && Offline(ev)
    ensures t in CallStep(s, t, s.calls[t].pc, ev).calls ==> OfflinePc(CallStep(s, t, s.calls[t].pc, ev).calls[t].pc)
  {
    match s.calls[t].pc {
      case Reading(job) => assert t in ReadStep(s, t, job).calls ==> OfflinePc(ReadStep(s, t, job).calls[t].pc);
      case _ =>
    }
  }

  lemma OfflineIsPassedOn(s: State, ev: Event, t: nat)
    requires Offline(ev) && (t in s.calls ==> OfflinePc(s.calls[t].pc))
    ensures t in Step(s, ev).calls ==> OfflinePc(Step(s, ev).calls[t].pc)
  {
    match ev {
      case Tick(_) =>
      case CallAccess(_, _) =>
      case CallInvalidate(_, _) =>
      case CallReset(_) =>
      case DeadLeaseExpires =>
      case LeaseLapses =>
      case _ =>
        if ev.call == t && t in s.calls {
          OfflineCall(s, ev, t);
        }
    }
  }

  lemma {:induction false} OfflineCalls(stored: Option<Grant>, now: int, evs: seq<Event>, t: nat)
    requires forall ev :: ev in evs ==> Offline(ev)
    ensures var s := Exec(Initial(stored, now), evs); t in s.calls ==> OfflinePc(s.calls[t].pc)
    decreases |evs|
  {
    if evs != [] {
      var n := |evs| - 1;
      OfflineCalls(stored, now, evs[..n], t);
      assert Offline(evs[n]);
      OfflineIsPassedOn(Exec(Initial(stored, now), evs[..n]), evs[n], t);
    }
  }

  ghost predicate Renewable(stored: Option<Grant>) { stored.Some? && stored.value.refresh != "" }

  /**
   * Whatever fails, an offline grant survives: with no refusal, no reset and no authorization
   * without a refresh token, a stored refresh token is never lost.
   */
  lemma {:induction false} GrantsSurviveOutages(stored: Option<Grant>, now: int, evs: seq<Event>)
    requires NoLapse(evs) && Renewable(stored)
    requires forall ev :: ev in evs ==> !IsReset(ev) && Offline(ev)
    requires forall t :: !Refused(evs, t)
    ensures Renewable(Exec(Initial(stored, now), evs).stored)
    decreases |evs|
  {
    if evs != [] {
      var n := |evs| - 1;
      assert forall t :: Refused(evs[..n], t) ==> Refused(evs, t);
      GrantsSurviveOutages(stored, now, evs[..n]);
      var s := Exec(Initial(stored, now), evs[..n]);
      ExecKeeps(stored, now, evs[..n]);
      forall t | t in s.calls ensures Harmless(s.calls[t].pc) && Knows(s.calls[t].pc, s.stored) {
        DeletionsWereRefused(stored, now, evs[..n], t);
        ResetsWereCalled(stored, now, evs[..n], t);
        OfflineCalls(stored, now, evs[..n], t);
        assert CallOk(s, t);
      }
      HarmlessStep(s, evs[n]);
    }
  }

  ghost predicate Harmless(pc: Pc) { OfflinePc(pc) && (pc.Deleting? ==> !pc.job.Access? && !pc.job.Reset?) }

  // What a call in progress may store.
  lemma HarmlessEffects(s: State, t: nat)
    requires Renewable(s.stored) && t in s.calls && Harmless(s.calls[t].pc) && Knows(s.calls[t].pc, s.stored)
    ensures Renewable(Applied(s, s.calls[t].pc).stored)
    ensures !(s.calls[t].pc.Deleting?)
  {
  }

  lemma OthersStoreNothing(s: State, t: nat, ev: Event)
    requires t in s.calls && !ev.WriteReplied? && !ev.DeleteReplied? && !ev.Raised?
    ensures CallStep(s, t, s.calls[t].pc, ev).stored == s.stored
  {
  }

  lemma HarmlessStep(s: State, ev: Event)
    requires Renewable(s.stored)
    requires forall t :: t in s.calls ==> Harmless(s.calls[t].pc) && Knows(s.calls[t].pc, s.stored)
    ensures Renewable(Step(s, ev).stored)
  {
    match ev {
      case Tick(_) =>
      case CallAccess(_, _) =>
      case CallInvalidate(_, _) =>
      case CallReset(_) =>
      case DeadLeaseExpires =>
      case LeaseLapses =>
      case Raised(t, applied, released) =>
        if t in s.calls {
          HarmlessEffects(s, t);
        }
      case WriteReplied(t) =>
        if t in s.calls {
          HarmlessEffects(s, t);
        }
      case DeleteReplied(t) =>
        if t in s.calls {
          HarmlessEffects(s, t);
        }
      case _ =>
        if ev.call in s.calls {
          OthersStoreNothing(s, ev.call, ev);
        }
    }
  }

  // ---------- What changes the stored grant ----------

  ghost predicate Succeeded(evs: seq<Event>, t: nat) { exists token :: PostReplied(t, Success(token)) in evs }

  lemma {:induction false} RefreshesWereAnswered(stored: Option<Grant>, now: int, evs: seq<Event>, t: nat)
    ensures var s := Exec(Initial(stored, now), evs);
            t in s.calls && s.calls[t].pc.Writing? && s.calls[t].pc.job.Access? ==> Succeeded(evs, t)
    decreases |evs|
  {
    if evs != [] {
      var n := |evs| - 1;
      RefreshesWereAnswered(stored, now, evs[..n], t);
      var s := Exec(Initial(stored, now), evs[..n]);
      var r := Step(s, evs[n]);
      if t in r.calls && r.calls[t].pc.Writing? && r.calls[t].pc.job.Access? {
        WritingFollowsAnswer(s, evs[n], t);
        if t in s.calls && s.calls[t].pc == r.calls[t].pc {
          var token :| PostReplied(t, Success(token)) in evs[..n];
          assert PostReplied(t, Success(token)) in evs;
        }
      }
    }
  }

  lemma WritingFollowsAnswer(s: State, ev: Event, t: nat)
    requires t in Step(s, ev).calls && Step(s, ev).calls[t].pc.Writing? && Step(s, ev).calls[t].pc.job.Access?
    ensures || (ev.PostReplied? && ev.call == t && ev.response.Success?)
            || (t in s.calls && s.calls[t].pc == Step(s, ev).calls[t].pc)
  {
    match ev {
      case Tick(_) =>
      case CallAccess(_, _) =>
      case CallInvalidate(_, _) =>
      case CallReset(_) =>
      case DeadLeaseExpires =>
      case LeaseLapses =>
      case _ =>
        if ev.call == t && t in s.calls {
          CallStartsWriting(s, ev, t);
        }
    }
  }

  lemma CallStartsWriting(s: State, ev: Event, t: nat)
    requires t in s.calls
    ensures var r := CallStep(s, t, s.calls[t].pc, ev);
            t in r.calls && r.calls[t].pc.Writing? && r.calls[t].pc.job.Access? ==>
              (ev.PostReplied? && ev.response.Success?) || r.calls[t].pc == s.calls[t].pc
  {
  }

  // Why a call may replace or delete the grant.
  ghost predicate Cause(s: State, evs: seq<Event>, t: nat, after: Option<Grant>) {
    t in s.calls && s.holder == Some(t) &&
    match s.calls[t].pc
    case Writing(grant, SaveConsent(_)) => after == Some(grant.(consent := s.consents + 1))
    case Writing(grant, Access(_)) => after == Some(grant) && Succeeded(evs, t)
    case Writing(grant, Invalidate(_)) => s.stored.Some? && after == Some(s.stored.value.(expiresAt := 0))
    case Deleting(Access(_)) => after == None && Refused(evs, t)
    case Deleting(Reset) => after == None
    case _ => false
  }

  /**
   * The stored grant changes only by the holder of the lock, and only when it stores a new
   * authorization or the answer of a successful refresh, expires an access token, or deletes the
   * grant for a reset or after `invalid_grant`; any other failure leaves it as it is.
   */
  lemma ChangesHaveCauses(stored: Option<Grant>, now: int, evs: seq<Event>, ev: Event)
    requires NoLapse(evs)
    ensures var s := Exec(Initial(stored, now), evs);
            Step(s, ev).stored != s.stored ==> exists t :: Cause(s, evs, t, Step(s, ev).stored)
  {
    var s := Exec(Initial(stored, now), evs);
    ExecKeeps(stored, now, evs);
    if !ev.WriteReplied? && !ev.DeleteReplied? && !ev.Raised? {
      OthersStoreNothingAtAll(s, ev);
    } else if Step(s, ev).stored != s.stored {
      var t := ev.call;
      assert CallOk(s, t);
      DeletionsWereRefused(stored, now, evs, t);
      RefreshesWereAnswered(stored, now, evs, t);
      ChangeMatches(s, t, ev);
      assert Cause(s, evs, t, Step(s, ev).stored);
    }
  }

  lemma OthersStoreNothingAtAll(s: State, ev: Event)
    requires !ev.WriteReplied? && !ev.DeleteReplied? && !ev.Raised?
    ensures Step(s, ev).stored == s.stored
  {
    match ev {
      case Tick(_) =>
      case CallAccess(_, _) =>
      case CallInvalidate(_, _) =>
      case CallReset(_) =>
      case DeadLeaseExpires =>
      case LeaseLapses =>
      case WriteReplied(_) => assert false;
      case DeleteReplied(_) => assert false;
      case Raised(_, _, _) => assert false;
      case _ =>
        if ev.call in s.calls {
          OthersStoreNothing(s, ev.call, ev);
        }
    }
  }

  lemma ChangeMatches(s: State, t: nat, ev: Event)
    requires t in s.calls && (ev.WriteReplied? || ev.DeleteReplied? || ev.Raised?) && ev.call == t
    requires Step(s, ev).stored != s.stored
    ensures s.calls[t].pc.Writing? || s.calls[t].pc.Deleting?
    ensures Step(s, ev).stored == Applied(s, s.calls[t].pc).stored
  {
    match ev {
      case WriteReplied(_) =>
      case DeleteReplied(_) => DeletedStored(s, t);
      case Raised(_, applied, released) => assert Step(s, ev) == RaiseStep(s, t, applied, released);
    }
  }

  lemma DeletedStored(s: State, t: nat)
    requires t in s.calls
    ensures s.calls[t].pc.Deleting? ==> Step(s, DeleteReplied(t)).stored == None
    ensures !s.calls[t].pc.Deleting? ==> Step(s, DeleteReplied(t)).stored == s.stored
  {
  }

  // ---------- One refresh serves every caller ----------

  // Calls that leave a fresh grant with this access token alone.
  predicate Harmony(pc: Pc, g: Grant) {
    match pc
    case WantsLocal(job) => job.Access?
    case WantsShared(job) => job.Access? || (job.Invalidate? && job.rejected != g.access)
    case Reading(job) => job.Access? || (job.Invalidate? && job.rejected != g.access)
    case _ => false
  }

  // Calls that will reset, replace or invalidate it once they get the shared lock.
  predicate Waiting(pc: Pc) {
    pc.WantsLocal? || pc.WantsShared? || pc.AwaitingPerson? || pc.Answered? || pc.Exchanging?
  }

  function Disturbers(s: State, g: Grant): set<nat> {
    set t | t in s.calls && !Harmony(s.calls[t].pc, g)
  }

  // Neither a reset, nor an authorization, nor an invalidation of this token takes effect.
  predicate Leaves(ev: Event, disturbers: set<nat>, g: Grant) {
    match ev
    case LeaseLapses => false
    case CallReset(_) => false
    case CallInvalidate(_, rejected) => rejected != g.access
    case TakeShared(t) => t !in disturbers
    case _ => true
  }

  ghost predicate Quiet(s: State, g: Grant, disturbers: set<nat>) {
    && s.stored == Some(g)
    && (forall t :: t in disturbers ==> t < s.next)
    && forall t :: t in s.calls ==> t < s.next && QuietCall(s.calls[t].pc, t, g, disturbers)
  }

  predicate QuietCall(pc: Pc, t: nat, g: Grant, disturbers: set<nat>) {
    if t in disturbers then Waiting(pc) else Harmony(pc, g)
  }

  // The successful refresh was the only call between its read and its write.
  lemma SuccessIsQuiet(s: State, t: nat)
    requires Inv(s) && t in s.calls && s.calls[t].pc.Writing? && s.calls[t].pc.job.Access?
    ensures var g := s.calls[t].pc.grant;
            var r := Step(s, WriteReplied(t));
            Quiet(r, g, Disturbers(r, g))
  {
    var r := Step(s, WriteReplied(t));
    var g := s.calls[t].pc.grant;
    assert CallOk(s, t);
    assert r == WriteStep(s, t, g, s.calls[t].pc.job);
    forall u | u in r.calls ensures u < s.next && (Harmony(r.calls[u].pc, g) || Waiting(r.calls[u].pc)) {
      assert CallOk(s, u);
    }
  }

  lemma QuietRead(s: State, t: nat, g: Grant, disturbers: set<nat>)
    requires Quiet(s, g, disturbers) && Fresh(Some(g), s.now) && t in s.calls && s.calls[t].pc.Reading?
    ensures Quiet(ReadStep(s, t, s.calls[t].pc.job), g, disturbers)
    ensures ReadStep(s, t, s.calls[t].pc.job).posts == s.posts
    ensures s.calls[t].pc.job.Access? ==>
              var r := ReadStep(s, t, s.calls[t].pc.job); t in r.results && r.results[t] == g.access && t !in r.calls
  {
  }

  lemma QuietCallStep(s: State, t: nat, ev: Event, g: Grant, disturbers: set<nat>)
    requires Quiet(s, g, disturbers) && Fresh(Some(g), s.now) && t in s.calls
    requires ev.TakeShared? ==> t !in disturbers
    ensures Quiet(CallStep(s, t, s.calls[t].pc, ev), g, disturbers)
    ensures CallStep(s, t, s.calls[t].pc, ev).posts == s.posts
  {
    assert QuietCall(s.calls[t].pc, t, g, disturbers);
    match s.calls[t].pc {
      case Reading(job) =>
        if ev.ReadReplied? {
          QuietRead(s, t, g, disturbers);
        } else {
          QuietRaise(s, t, ev, g, disturbers);
        }
      case WantsLocal(job) => QuietWait(s, t, ev, g, disturbers);
      case WantsShared(job) => QuietWait(s, t, ev, g, disturbers);
      case AwaitingPerson(_) => QuietWait(s, t, ev, g, disturbers);
      case Answered(_) => QuietWait(s, t, ev, g, disturbers);
      case Exchanging => QuietWait(s, t, ev, g, disturbers);
    }
  }

  lemma QuietRaise(s: State, t: nat, ev: Event, g: Grant, disturbers: set<nat>)
    requires Quiet(s, g, disturbers) && t in s.calls && s.calls[t].pc.Reading? && !ev.ReadReplied?
    ensures Quiet(CallStep(s, t, s.calls[t].pc, ev), g, disturbers)
    ensures CallStep(s, t, s.calls[t].pc, ev).posts == s.posts
  {
  }

  lemma QuietWait(s: State, t: nat, ev: Event, g: Grant, disturbers: set<nat>)
    requires Quiet(s, g, disturbers) && t in s.calls && Waiting(s.calls[t].pc)
    requires ev.TakeShared? ==> t !in disturbers
    ensures Quiet(CallStep(s, t, s.calls[t].pc, ev), g, disturbers)
    ensures CallStep(s, t, s.calls[t].pc, ev).posts == s.posts
  {
  }

  lemma QuietStep(s: State, ev: Event, g: Grant, disturbers: set<nat>)
    requires Quiet(s, g, disturbers) && Fresh(Some(g), s.now) && Leaves(ev, disturbers, g)
    ensures Quiet(Step(s, ev), g, disturbers) && Step(s, ev).posts == s.posts
  {
    match ev {
      case Tick(_) =>
      case CallAccess(_, _) =>
      case CallInvalidate(_, _) =>
      case CallReset(_) => assert false;
      case DeadLeaseExpires =>
      case LeaseLapses => assert false;
      case _ =>
        if ev.call in s.calls {
          QuietCallStep(s, ev.call, ev, g, disturbers);
        }
    }
  }

  lemma StepReturnsStored(s: State, ev: Event)
    ensures ReturnsStored(s, Step(s, ev))
  {
    match ev {
      case Tick(_) =>
      case CallAccess(_, _) =>
      case CallInvalidate(_, _) =>
      case CallReset(_) =>
      case DeadLeaseExpires =>
      case LeaseLapses =>
      case _ =>
        if ev.call in s.calls {
          assert Step(s, ev) == CallStep(s, ev.call, s.calls[ev.call].pc, ev);
        }
    }
  }

  lemma TimeNeverFalls(s: State, ev: Event)
    ensures s.now <= Step(s, ev).now
  {
  }

  lemma {:induction false} QuietRun(s: State, evs: seq<Event>, g: Grant, disturbers: set<nat>)
    requires Quiet(s, g, disturbers) && forall ev :: ev in evs ==> Leaves(ev, disturbers, g)
    requires Fresh(Some(g), Exec(s, evs).now)
    ensures Quiet(Exec(s, evs), g, disturbers) && Exec(s, evs).posts == s.posts && s.now <= Exec(s, evs).now
    ensures forall u :: u in Exec(s, evs).results && u !in s.results ==> Exec(s, evs).results[u] == g.access
    decreases |evs|
  {
    if evs != [] {
      var n := |evs| - 1;
      var r := Exec(s, evs[..n]);
      StepReturnsStored(r, evs[n]);
      TimeNeverFalls(r, evs[n]);
      QuietRun(s, evs[..n], g, disturbers);
      assert evs[n] in evs;
      QuietStep(r, evs[n], g, disturbers);
    }
  }

  lemma QuietServes(s: State, evs: seq<Event>, g: Grant, disturbers: set<nat>, u: nat)
    requires Quiet(s, g, disturbers) && forall ev :: ev in evs ==> Leaves(ev, disturbers, g)
    requires Fresh(Some(g), Exec(s, evs).now)
    ensures Serves(s, Exec(s, evs), g, u)
  {
    QuietRun(s, evs, g, disturbers);
    var end := Exec(s, evs);
    if u in end.calls && end.calls[u].pc.Reading? && end.calls[u].pc.job.Access? {
      QuietRead(end, u, g, disturbers);
      assert Step(end, ReadReplied(u)) == ReadStep(end, u, end.calls[u].pc.job);
    }
  }

  // The grant is still stored, nobody posted since, and the call returned, or reads next, its token.
  ghost predicate Serves(s: State, end: State, g: Grant, u: nat) {
    && end.stored == Some(g) && end.posts == s.posts
    && (u in end.results && u !in s.results ==> end.results[u] == g.access)
    && (u in end.calls && end.calls[u].pc.Reading? && end.calls[u].pc.job.Access? ==>
          var next := Step(end, ReadReplied(u)); u in next.results && next.results[u] == g.access && next.posts == s.posts)
  }

  // A call whose successful refresh is being stored.
  predicate Refreshing(s: State, t: nat) {
    t in s.calls && s.calls[t].pc.Writing? && s.calls[t].pc.job.Access?
  }

  /**
   * Once a refresh has stored a grant, and while the grant is fresh, nobody posts and every later
   * caller returns its token, in every interleaving in which no reset, authorization or invalidation
   * of that token takes the lock.
   */
  lemma OneRefreshServesAll(stored: Option<Grant>, now: int, before: seq<Event>, t: nat, evs: seq<Event>, u: nat)
    requires NoLapse(before)
    ensures var s := Exec(Initial(stored, now), before);
            Refreshing(s, t) ==>
              var g := s.calls[t].pc.grant;
              var r := Step(s, WriteReplied(t));
              (forall ev :: ev in evs ==> Leaves(ev, Disturbers(r, g), g)) && Fresh(Some(g), Exec(r, evs).now) ==>
                Serves(r, Exec(r, evs), g, u)
  {
    var s := Exec(Initial(stored, now), before);
    ExecKeeps(stored, now, before);
    if Refreshing(s, t) {
      var g := s.calls[t].pc.grant;
      var r := Step(s, WriteReplied(t));
      SuccessIsQuiet(s, t);
      if (forall ev :: ev in evs ==> Leaves(ev, Disturbers(r, g), g)) && Fresh(Some(g), Exec(r, evs).now) {
        QuietServes(r, evs, g, Disturbers(r, g), u);
      }
    }
  }

  /** Each process asks a person at most once at a time. */
  lemma OnePersonAtATime(stored: Option<Grant>, now: int, evs: seq<Event>, t: nat, u: nat)
    requires NoLapse(evs)
    ensures var s := Exec(Initial(stored, now), evs);
            (&& t in s.calls && s.calls[t].pc.AwaitingPerson?
             && u in s.calls && s.calls[u].pc.AwaitingPerson?
             && s.calls[t].process == s.calls[u].process) ==> t == u
  {
    ExecKeeps(stored, now, evs);
    var s := Exec(Initial(stored, now), evs);
    assert forall u :: u in s.calls ==> CallOk(s, u);
  }

  // ---------- A lapsed lease ----------

  // A person authorizes while an invalidation of the old access token outlives its lease.
  function Overtaken(access: string, token: Token): seq<Event> {
    [CallAccess(0, true), TakeLocal(0), TakeShared(0), ReadReplied(0)]
    + [CallInvalidate(1, access), TakeShared(1), ReadReplied(1), LeaseLapses]
    + [CalledBack(0, "code"), Resumed(0), ExchangeReplied(0, Some(token)), TakeShared(0), WriteReplied(0)]
    + [WriteReplied(1)]
  }

  lemma {:induction false} ExecInParts(s: State, a: seq<Event>, b: seq<Event>)
    ensures Exec(s, a + b) == Exec(Exec(s, a), b)
    decreases |b|
  {
    if b == [] {
      assert a + b == a;
    } else {
      var n := |b| - 1;
      assert (a + b)[..|a| + n] == a + b[..n];
      ExecInParts(s, a, b[..n]);
    }
  }

  lemma Four(s: State, a: Event, b: Event, c: Event, d: Event)
    ensures Exec(s, [a, b, c, d]) == Step(Step(Step(Step(s, a), b), c), d)
  {
    assert [a, b, c, d] == [a, b, c] + [d] && [a, b, c] == [a, b] + [c] && [a, b] == [a] + [b];
    Last(s, [a, b, c], d);
    Last(s, [a, b], c);
    Last(s, [a], b);
    One(s, a);
  }

  lemma Last(s: State, evs: seq<Event>, ev: Event)
    ensures Exec(s, evs + [ev]) == Step(Exec(s, evs), ev)
  {
    assert (evs + [ev])[..|evs|] == evs;
  }

  lemma One(s: State, a: Event)
    ensures Exec(s, [a]) == Step(s, a)
  {
    assert [a][..0] == [];
  }

  lemma Queues(s: State)
    requires s.next == 0 && s.calls == map[] && s.local == map[]
    ensures Step(Step(s, CallAccess(0, true)), TakeLocal(0)) ==
            s.(local := map[0 := 0], calls := map[0 := Call(0, WantsShared(Access(true)))], next := 1)
  {
    var s1 := Step(s, CallAccess(0, true));
    assert s1.calls == map[0 := Call(0, WantsLocal(Access(true)))];
    assert s1 == s.(calls := s1.calls, next := 1);
  }

  lemma Asks(s: State)
    requires s.holder == None && s.calls == map[0 := Call(0, WantsShared(Access(true)))]
    requires s.stored.Some? && s.stored.value.refresh == "" && s.stored.value.expiresAt <= s.now + 60
    ensures Step(Step(s, TakeShared(0)), ReadReplied(0)) == s.(calls := map[0 := Call(0, AwaitingPerson(s.now))])
  {
    var s1 := Step(s, TakeShared(0));
    assert s1.calls == map[0 := Call(0, Reading(Access(true)))];
    assert s1 == s.(calls := s1.calls, holder := Some(0));
  }

  // A stale grant that cannot be refreshed: a person is asked.
  lemma AsksThePerson(g: Grant, now: int)
    requires g.refresh == "" && g.expiresAt <= now + 60
    ensures Exec(Initial(Some(g), now), [CallAccess(0, true), TakeLocal(0), TakeShared(0), ReadReplied(0)]) ==
            Initial(Some(g), now).(local := map[0 := 0], calls := map[0 := Call(0, AwaitingPerson(now))], next := 1)
  {
    var s := Initial(Some(g), now);
    Four(s, CallAccess(0, true), TakeLocal(0), TakeShared(0), ReadReplied(0));
    Queues(s);
    Asks(Step(Step(s, CallAccess(0, true)), TakeLocal(0)));
  }

  lemma InvalidationLapses(s: State, g: Grant)
    requires s.stored == Some(g) && s.holder == None && s.next == 1 && s.calls == map[0 := Call(0, AwaitingPerson(s.now))]
    ensures Exec(s, [CallInvalidate(1, g.access), TakeShared(1), ReadReplied(1), LeaseLapses]) ==
            s.(calls := s.calls[1 := Call(1, Writing(g.(expiresAt := 0), Invalidate(g.access)))], next := 2)
  {
    Four(s, CallInvalidate(1, g.access), TakeShared(1), ReadReplied(1), LeaseLapses);
    InvalidationWrites(s, g);
  }

  lemma InvalidationWrites(s: State, g: Grant)
    requires s.stored == Some(g) && s.holder == None && s.next == 1 && s.calls == map[0 := Call(0, AwaitingPerson(s.now))]
    ensures Step(Step(Step(s, CallInvalidate(1, g.access)), TakeShared(1)), ReadReplied(1)) ==
            s.(calls := s.calls[1 := Call(1, Writing(g.(expiresAt := 0), Invalidate(g.access)))], next := 2, holder := Some(1))
  {
    var s1 := Step(s, CallInvalidate(1, g.access));
    var s2 := Step(s1, TakeShared(1));
    var s3 := Step(s2, ReadReplied(1));
    assert s1.calls == s.calls[1 := Call(1, WantsShared(Invalidate(g.access)))];
    assert s2.calls == s.calls[1 := Call(1, Reading(Invalidate(g.access)))];
    assert s3.calls == s.calls[1 := Call(1, Writing(g.(expiresAt := 0), Invalidate(g.access)))];
  }

  lemma PersonAnswers(s: State, w: Call)
    requires s.calls == map[0 := Call(0, AwaitingPerson(s.now)), 1 := w]
    ensures Step(Step(s, CalledBack(0, "code")), Resumed(0)) == s.(calls := map[0 := Call(0, Exchanging), 1 := w])
  {
    var s1 := Step(s, CalledBack(0, "code"));
    assert s1.calls == map[0 := Call(0, Answered("code")), 1 := w];
    assert s1 == s.(calls := s1.calls);
  }

  lemma TokenArrives(s: State, w: Call, token: Token)
    requires s.holder == None && s.calls == map[0 := Call(0, Exchanging), 1 := w] && token.access != ""
    ensures Step(Step(s, ExchangeReplied(0, Some(token))), TakeShared(0)) ==
            s.(holder := Some(0), calls := map[0 := Call(0, Writing(FromToken(token, "", "", s.now, 0), SaveConsent(token))), 1 := w])
  {
    var s1 := Step(s, ExchangeReplied(0, Some(token)));
    assert s1.calls == map[0 := Call(0, WantsShared(SaveConsent(token))), 1 := w];
    assert s1 == s.(calls := s1.calls);
  }

  lemma PersonAuthorizes(s: State, w: Call, token: Token)
    requires s.holder == None && s.calls == map[0 := Call(0, AwaitingPerson(s.now)), 1 := w] && token.access != ""
    ensures Exec(s, [CalledBack(0, "code"), Resumed(0), ExchangeReplied(0, Some(token)), TakeShared(0)]) ==
            s.(holder := Some(0), calls := map[0 := Call(0, Writing(FromToken(token, "", "", s.now, 0), SaveConsent(token))), 1 := w])
  {
    Four(s, CalledBack(0, "code"), Resumed(0), ExchangeReplied(0, Some(token)), TakeShared(0));
    PersonAnswers(s, w);
    TokenArrives(Step(Step(s, CalledBack(0, "code")), Resumed(0)), w, token);
  }

  lemma OneWrites(s: State, t: nat, grant: Grant, job: Job)
    requires t in s.calls && s.calls[t].pc == Writing(grant, job)
    ensures Step(s, WriteReplied(t)) == WriteStep(s, t, grant, job)
  {
  }

  // Once the lease has lapsed, the authorization is stored and then overwritten.
  lemma BothWrite(s: State, newer: Grant, token: Token, g: Grant, rejected: string)
    requires 0 in s.calls && s.calls[0].pc == Writing(newer, SaveConsent(token))
    requires 1 in s.calls && s.calls[1].pc == Writing(g, Invalidate(rejected))
    ensures Exec(s, [WriteReplied(0), WriteReplied(1)]).stored == Some(g)
    ensures Exec(s, [WriteReplied(0), WriteReplied(1)]).consents == s.consents + 1
  {
    assert [WriteReplied(0), WriteReplied(1)] == [WriteReplied(0)] + [WriteReplied(1)];
    ExecInParts(s, [WriteReplied(0)], [WriteReplied(1)]);
    One(s, WriteReplied(0));
    OneWrites(s, 0, newer, SaveConsent(token));
    var r := WriteStep(s, 0, newer, SaveConsent(token));
    One(r, WriteReplied(1));
    OneWrites(r, 1, g, Invalidate(rejected));
  }

  /** The lease matters: once it lapses, an invalidation can restore the grant that a person replaced. */
  lemma LapsedLeaseRestoresAnOldGrant(g: Grant, now: int, token: Token)
    requires g.refresh == "" && g.expiresAt <= now + 60 && token.access != ""
    ensures var s := Exec(Initial(Some(g), now), Overtaken(g.access, token));
            s.stored == Some(g.(expiresAt := 0, consent := 0)) && s.consents == 1
  {
    var g0 := g.(consent := 0);
    var first := [CallAccess(0, true), TakeLocal(0), TakeShared(0), ReadReplied(0)];
    var second := [CallInvalidate(1, g.access), TakeShared(1), ReadReplied(1), LeaseLapses];
    var third := [CalledBack(0, "code"), Resumed(0), ExchangeReplied(0, Some(token)), TakeShared(0)];
    var fourth := [WriteReplied(0), WriteReplied(1)];
    var start := Initial(Some(g), now);
    assert Overtaken(g.access, token) == first + second + third + fourth;
    ExecInParts(start, first + second + third, fourth);
    ExecInParts(start, first + second, third);
    ExecInParts(start, first, second);
    AsksThePerson(g, now);
    InvalidationLapses(Exec(start, first), g0);
    PersonAuthorizes(Exec(start, first + second), Call(1, Writing(g0.(expiresAt := 0), Invalidate(g.access))), token);
    BothWrite(Exec(start, first + second + third), FromToken(token, "", "", now, 0), token, g0.(expiresAt := 0), g.access);
  }

  // ---------- What one call does ----------

  // Nothing holds the shared lock, nor the process its own.
  ghost predicate Idle(s: State, p: nat) { s.holder.None? && p !in s.local && s.next !in s.calls }

  // The next call, of this process, in its critical section.
  function Inside(s: State, p: nat, pc: Pc): State {
    s.(calls := s.calls[s.next := Call(p, pc)], next := s.next + 1, holder := Some(s.next), local := s.local[p := s.next])
  }

  // The same call, with only its process's lock.
  function Outside(s: State, p: nat, pc: Pc): State {
    s.(calls := s.calls[s.next := Call(p, pc)], next := s.next + 1, local := s.local[p := s.next])
  }

  // The call is over, and has left nothing but what `s` says.
  function Over(s: State): State { s.(next := s.next + 1) }

  function Entered(s: State, p: nat, emit: bool): State {
    Step(Step(Step(s, CallAccess(p, emit)), TakeLocal(s.next)), TakeShared(s.next))
  }

  lemma Overwritten<V>(m: map<nat, V>, k: nat, a: V, b: V)
    ensures m[k := a][k := b] == m[k := b] && m[k := a] - {k} == m - {k}
    ensures k !in m ==> m - {k} == m
  {
  }

  lemma CallEnters(s: State, p: nat, emit: bool)
    requires Idle(s, p)
    ensures Entered(s, p, emit) == Inside(s, p, Reading(Access(emit)))
  {
    var t := s.next;
    Overwritten(s.calls, t, Call(p, WantsLocal(Access(emit))), Call(p, WantsShared(Access(emit))));
    assert Step(Step(s, CallAccess(p, emit)), TakeLocal(t)) == Outside(s, p, WantsShared(Access(emit)));
    Overwritten(s.calls, t, Call(p, WantsShared(Access(emit))), Call(p, Reading(Access(emit))));
  }

  lemma InsideEnds(s: State, p: nat, pc: Pc)
    requires Idle(s, p)
    ensures Finish(Inside(s, p, pc), s.next) == Over(s)
    ensures Finish(Outside(s, p, pc), s.next) == Over(s)
  {
    Overwritten(s.calls, s.next, Call(p, pc), Call(p, pc));
    Overwritten(s.local, p, s.next, s.next);
    assert Inside(s, p, pc).calls - {s.next} == s.calls;
    assert Inside(s, p, pc).local - {p} == s.local;
  }

  lemma InsideMoves(s: State, p: nat, pc: Pc, to: Pc)
    ensures SetPc(Inside(s, p, pc), s.next, to) == Inside(s, p, to)
    ensures SetPc(Outside(s, p, pc), s.next, to) == Outside(s, p, to)
    ensures SetPc(FreeShared(Inside(s, p, pc), s.next), s.next, to).(holder := s.holder) == Outside(s, p, to)
  {
    Overwritten(s.calls, s.next, Call(p, pc), Call(p, to));
  }

  /** A grant with more than a minute left is returned at once: nothing is posted, stored or asked. */
  lemma FreshGrantsAreReturned(s: State, p: nat, emit: bool)
    requires Idle(s, p) && s.stored.Some? && s.stored.value.access != "" && s.stored.value.expiresAt > s.now + 60
    ensures Step(Entered(s, p, emit), ReadReplied(s.next)) == Over(s.(results := s.results[s.next := s.stored.value.access]))
  {
    CallEnters(s, p, emit);
    InsideEnds(s, p, Reading(Access(emit)));
  }

  // A grant that is used up, or about to be, and can be renewed.
  predicate Stale(s: State) {
    && s.stored.Some? && s.stored.value.refresh != ""
    && (s.stored.value.access == "" || s.stored.value.expiresAt <= s.now + 60)
  }

  /** A stale grant with a refresh token is posted, whether or not a person could be asked. */
  lemma StaleGrantsArePosted(s: State, p: nat, emit: bool)
    requires Idle(s, p) && Stale(s)
    ensures Step(Entered(s, p, emit), ReadReplied(s.next)) == Inside(s.(posts := s.posts + 1), p, Posting(s.stored.value, emit))
  {
    CallEnters(s, p, emit);
    InsideMoves(s, p, Reading(Access(emit)), Posting(s.stored.value, emit));
  }

  lemma InsideWrites(s: State, p: nat, grant: Grant, job: Job)
    requires Idle(s, p) && (job.Access? || job.SaveConsent?)
    ensures Step(Inside(s, p, Writing(grant, job)), WriteReplied(s.next)) ==
            Over(Written(s, grant, job).(results := s.results[s.next := grant.access]))
  {
    InsideEnds(Written(s, grant, job), p, Writing(grant, job));
  }

  lemma PostSucceeds(s: State, p: nat, g: Grant, emit: bool, token: Token)
    requires token.access != ""
    ensures Step(Inside(s, p, Posting(g, emit)), PostReplied(s.next, Success(token))) ==
            Inside(s, p, Writing(FromToken(token, g.refresh, g.scope, s.now, g.consent), Access(emit)))
  {
    InsideMoves(s, p, Posting(g, emit), Writing(FromToken(token, g.refresh, g.scope, s.now, g.consent), Access(emit)));
  }

  lemma PostIsRefused(s: State, p: nat, g: Grant, emit: bool)
    ensures Step(Inside(s, p, Posting(g, emit)), PostReplied(s.next, InvalidGrant)) == Inside(s, p, Deleting(Access(emit)))
  {
    InsideMoves(s, p, Posting(g, emit), Deleting(Access(emit)));
  }

  lemma InsideDeletes(s: State, p: nat, emit: bool)
    requires Idle(s, p)
    ensures var r := s.(stored := None);
            Step(Inside(s, p, Deleting(Access(emit))), DeleteReplied(s.next)) ==
            if emit then Outside(r, p, AwaitingPerson(s.now)) else Over(r)
  {
    var r := s.(stored := None);
    InsideMoves(r, p, Deleting(Access(emit)), AwaitingPerson(s.now));
    InsideEnds(r, p, Deleting(Access(emit)));
  }

  // The answer of Google to the posted refresh, and of Redis to the command that follows it.
  function Refreshed(s: State, p: nat, emit: bool, response: Response): State {
    var posted := Step(Entered(s, p, emit), ReadReplied(s.next));
    var answered := Step(posted, PostReplied(s.next, response));
    match response
    case Success(_) => Step(answered, WriteReplied(s.next))
    case InvalidGrant => Step(answered, DeleteReplied(s.next))
    case Unavailable => answered
  }

  /** A successful refresh stores and returns the new access token, and keeps what the answer omits. */
  lemma RefreshesRenew(s: State, p: nat, emit: bool, token: Token)
    requires Idle(s, p) && Stale(s) && token.access != ""
    ensures var g := s.stored.value;
            var renewed := Grant(token.access, if token.refresh == "" then g.refresh else token.refresh,
                                 if token.scope == "" then g.scope else token.scope, s.now + token.expiresIn, g.consent);
            Refreshed(s, p, emit, Success(token)) ==
            Over(s.(stored := Some(renewed), posts := s.posts + 1, results := s.results[s.next := token.access]))
  {
    StaleGrantsArePosted(s, p, emit);
    var g, q := s.stored.value, s.(posts := s.posts + 1);
    PostSucceeds(q, p, g, emit, token);
    InsideWrites(q, p, FromToken(token, g.refresh, g.scope, s.now, g.consent), Access(emit));
  }

  /** An outage, or an answer without an access token, ends the call and leaves the grant as it was. */
  lemma OutagesKeepTheGrant(s: State, p: nat, emit: bool, token: Token)
    requires Idle(s, p) && Stale(s)
    ensures Refreshed(s, p, emit, Unavailable) == Over(s.(posts := s.posts + 1))
    ensures token.access == "" ==>
              Step(Step(Entered(s, p, emit), ReadReplied(s.next)), PostReplied(s.next, Success(token))) == Over(s.(posts := s.posts + 1))
  {
    StaleGrantsArePosted(s, p, emit);
    PostFails(s.(posts := s.posts + 1), p, s.stored.value, emit, token);
  }

  lemma PostFails(s: State, p: nat, g: Grant, emit: bool, token: Token)
    requires Idle(s, p)
    ensures Step(Inside(s, p, Posting(g, emit)), PostReplied(s.next, Unavailable)) == Over(s)
    ensures token.access == "" ==> Step(Inside(s, p, Posting(g, emit)), PostReplied(s.next, Success(token))) == Over(s)
  {
    InsideEnds(s, p, Posting(g, emit));
  }

  /** A refused grant is deleted, and a person is asked where the caller can show the request. */
  lemma RefusedGrantsAreDeleted(s: State, p: nat, emit: bool)
    requires Idle(s, p) && Stale(s)
    ensures var r := s.(stored := None, posts := s.posts + 1);
            Refreshed(s, p, emit, InvalidGrant) == if emit then Outside(r, p, AwaitingPerson(s.now)) else Over(r)
  {
    StaleGrantsArePosted(s, p, emit);
    PostIsRefused(s.(posts := s.posts + 1), p, s.stored.value, emit);
    InsideDeletes(s.(posts := s.posts + 1), p, emit);
  }

  /** Without a grant that can be used or renewed a person is asked, outside the shared lock, or the call returns nothing. */
  lemma MissingGrantsAreAskedFor(s: State, p: nat, emit: bool)
    requires Idle(s, p) && !Stale(s)
    requires s.stored.None? || s.stored.value.access == "" || s.stored.value.expiresAt <= s.now + 60
    ensures Step(Entered(s, p, emit), ReadReplied(s.next)) == if emit then Outside(s, p, AwaitingPerson(s.now)) else Over(s)
  {
    CallEnters(s, p, emit);
    InsideMoves(s, p, Reading(Access(emit)), AwaitingPerson(s.now));
    InsideEnds(s, p, Reading(Access(emit)));
  }

  // A person answers, and the code is exchanged for a token.
  function Answering(s: State, p: nat, created: int, code: string, token: Token): State {
    var resumed := Step(Step(Outside(s, p, AwaitingPerson(created)), CalledBack(s.next, code)), Resumed(s.next));
    Step(Step(resumed, ExchangeReplied(s.next, Some(token))), TakeShared(s.next))
  }

  /** An authorization answered in time is stored under a new consent, whatever was stored before, and returned. */
  lemma ConsentsAreStored(s: State, p: nat, created: int, code: string, token: Token)
    requires Idle(s, p) && s.now - created <= 600 && code != "" && token.access != ""
    ensures var granted := Grant(token.access, token.refresh, token.scope, s.now + token.expiresIn, s.consents + 1);
            Step(Answering(s, p, created, code, token), WriteReplied(s.next)) ==
            Over(s.(stored := Some(granted), consents := s.consents + 1, results := s.results[s.next := token.access]))
  {
    var grant := FromToken(token, "", "", s.now, 0);
    assert Answering(s, p, created, code, token) == Inside(s, p, Writing(grant, SaveConsent(token))) by {
      ConsentReaches(s, p, created, code, token);
    }
    ConsentIsStored(s, p, token);
  }

  lemma ConsentIsStored(s: State, p: nat, token: Token)
    requires Idle(s, p)
    ensures var granted := Grant(token.access, token.refresh, token.scope, s.now + token.expiresIn, s.consents + 1);
            Step(Inside(s, p, Writing(FromToken(token, "", "", s.now, 0), SaveConsent(token))), WriteReplied(s.next)) ==
            Over(s.(stored := Some(granted), consents := s.consents + 1, results := s.results[s.next := token.access]))
  {
    InsideWrites(s, p, FromToken(token, "", "", s.now, 0), SaveConsent(token));
  }

  lemma PersonAnswersInTime(s: State, p: nat, created: int, code: string)
    requires Idle(s, p) && s.now - created <= 600
    ensures Step(Outside(s, p, AwaitingPerson(created)), CalledBack(s.next, code)) == Outside(s, p, Answered(code))
    ensures Step(Outside(s, p, Answered(code)), Resumed(s.next)) == if code == "" then Over(s) else Outside(s, p, Exchanging)
  {
    InsideMoves(s, p, AwaitingPerson(created), Answered(code));
    InsideMoves(s, p, Answered(code), Exchanging);
    InsideEnds(s, p, Answered(code));
  }

  lemma CodeIsExchanged(s: State, p: nat, token: Option<Token>)
    requires Idle(s, p)
    ensures Step(Outside(s, p, Exchanging), ExchangeReplied(s.next, token)) ==
            if token.None? then Over(s) else Outside(s, p, WantsShared(SaveConsent(token.value)))
  {
    if token.Some? {
      InsideMoves(s, p, Exchanging, WantsShared(SaveConsent(token.value)));
    }
    InsideEnds(s, p, Exchanging);
  }

  lemma ConsentIsWritten(s: State, p: nat, token: Token)
    requires Idle(s, p) && token.access != ""
    ensures Step(Outside(s, p, WantsShared(SaveConsent(token))), TakeShared(s.next)) ==
            Inside(s, p, Writing(FromToken(token, "", "", s.now, 0), SaveConsent(token)))
  {
    SharedIsTaken(s, p, WantsShared(SaveConsent(token)), Writing(FromToken(token, "", "", s.now, 0), SaveConsent(token)));
  }

  lemma ConsentReaches(s: State, p: nat, created: int, code: string, token: Token)
    requires Idle(s, p) && s.now - created <= 600 && code != "" && token.access != ""
    ensures Answering(s, p, created, code, token) ==
            Inside(s, p, Writing(FromToken(token, "", "", s.now, 0), SaveConsent(token)))
  {
    PersonAnswersInTime(s, p, created, code);
    CodeIsExchanged(s, p, Some(token));
    ConsentIsWritten(s, p, token);
  }

  lemma SharedIsTaken(s: State, p: nat, pc: Pc, to: Pc)
    ensures SetPc(Outside(s, p, pc).(holder := Some(s.next)), s.next, to) == Inside(s, p, to)
  {
    Overwritten(s.calls, s.next, Call(p, pc), Call(p, to));
  }

  /** A late answer changes nothing; a declined or failed authorization ends the call and stores nothing. */
  lemma ConsentsMayFail(s: State, p: nat, created: int, code: string)
    requires Idle(s, p)
    ensures s.now - created > 600 ==>
              Step(Outside(s, p, AwaitingPerson(created)), CalledBack(s.next, code)) == Outside(s, p, AwaitingPerson(created))
    ensures s.now - created <= 600 ==>
              Step(Step(Outside(s, p, AwaitingPerson(created)), CalledBack(s.next, "")), Resumed(s.next)) == Over(s)
    ensures Step(Outside(s, p, Exchanging), ExchangeReplied(s.next, None)) == Over(s)
  {
    if s.now - created <= 600 {
      PersonAnswersInTime(s, p, created, "");
    }
    CodeIsExchanged(s, p, None);
  }

  /** An invalidation expires the stored grant if its access token is the rejected one, and changes nothing otherwise. */
  lemma InvalidationsExpireExactly(s: State, p: nat, rejected: string)
    requires Idle(s, p)
    ensures var t := s.next;
            var read := Step(Step(Step(s, CallInvalidate(p, rejected)), TakeShared(t)), ReadReplied(t));
            if s.stored.Some? && s.stored.value.access == rejected
            then Step(read, WriteReplied(t)) == Over(s.(stored := Some(s.stored.value.(expiresAt := 0))))
            else read == Over(s)
  {
    InvalidationReads(s, p, rejected);
    if s.stored.Some? && s.stored.value.access == rejected {
      InvalidationExpires(s, p);
    } else {
      InvalidationPasses(s, p, rejected);
    }
  }

  // A call in its critical section without its process's lock.
  function Unshared(s: State, p: nat, pc: Pc): State {
    s.(calls := s.calls[s.next := Call(p, pc)], next := s.next + 1, holder := Some(s.next))
  }

  lemma InvalidationReads(s: State, p: nat, rejected: string)
    requires Idle(s, p)
    ensures Step(Step(s, CallInvalidate(p, rejected)), TakeShared(s.next)) == Unshared(s, p, Reading(Invalidate(rejected)))
  {
    Overwritten(s.calls, s.next, Call(p, WantsShared(Invalidate(rejected))), Call(p, Reading(Invalidate(rejected))));
  }

  lemma InvalidationPasses(s: State, p: nat, rejected: string)
    requires Idle(s, p) && !(s.stored.Some? && s.stored.value.access == rejected)
    ensures Step(Unshared(s, p, Reading(Invalidate(rejected))), ReadReplied(s.next)) == Over(s)
  {
    Overwritten(s.calls, s.next, Call(p, Reading(Invalidate(rejected))), Call(p, Reading(Invalidate(rejected))));
  }

  lemma InvalidationExpires(s: State, p: nat)
    requires Idle(s, p) && s.stored.Some?
    ensures var job, expired := Invalidate(s.stored.value.access), s.stored.value.(expiresAt := 0);
            && Step(Unshared(s, p, Reading(job)), ReadReplied(s.next)) == Unshared(s, p, Writing(expired, job))
            && Step(Unshared(s, p, Writing(expired, job)), WriteReplied(s.next)) == Over(s.(stored := Some(expired)))
  {
    var job, expired := Invalidate(s.stored.value.access), s.stored.value.(expiresAt := 0);
    Overwritten(s.calls, s.next, Call(p, Reading(job)), Call(p, Writing(expired, job)));
    Overwritten(s.calls, s.next, Call(p, Writing(expired, job)), Call(p, Writing(expired, job)));
  }

  /** A reset deletes the grant, unless an operation of its process is in progress: then it is refused. */
  lemma ResetsDelete(s: State, p: nat)
    ensures p in s.local ==> Step(s, CallReset(p)) == s
    ensures Idle(s, p) ==>
              Step(Step(Step(Step(s, CallReset(p)), TakeLocal(s.next)), TakeShared(s.next)), DeleteReplied(s.next)) ==
              Over(s.(stored := None))
  {
    if Idle(s, p) {
      ResetBegins(s, p);
      ResetTakesTheLock(s, p);
      InsideEnds(s.(stored := None), p, Deleting(Reset));
      assert Step(Inside(s, p, Deleting(Reset)), DeleteReplied(s.next)) == Over(s.(stored := None));
    }
  }

  lemma ResetBegins(s: State, p: nat)
    requires Idle(s, p)
    ensures Step(Step(s, CallReset(p)), TakeLocal(s.next)) == Outside(s, p, WantsShared(Reset))
  {
    Overwritten(s.calls, s.next, Call(p, WantsLocal(Reset)), Call(p, WantsShared(Reset)));
  }

  lemma ResetTakesTheLock(s: State, p: nat)
    requires Idle(s, p)
    ensures Step(Outside(s, p, WantsShared(Reset)), TakeShared(s.next)) == Inside(s, p, Deleting(Reset))
  {
    SharedIsTaken(s, p, WantsShared(Reset), Deleting(Reset));
  }

  /** While a call holds a lock, the others wait for it. */
  lemma LocksAreWaitedFor(s: State, t: nat)
    requires t in s.calls
    ensures s.calls[t].pc.WantsShared? && s.holder.Some? ==> Step(s, TakeShared(t)) == s
    ensures s.calls[t].pc.WantsLocal? && s.calls[t].process in s.local ==> Step(s, TakeLocal(t)) == s
  {
  }

  // ---------- The steps in place ----------

  datatype PendingAuthorization = PendingAuthorization(created: int, answer: Option<string>)

  // The fields of one process beside the stored grant.  A declined authorization has the answer "".
  class GoogleOAuth {
    var stored: Option<Grant>
    var consents: nat
    var pending: map<nat, PendingAuthorization>

    constructor (stored: Option<Grant>)
      ensures this.stored == stored && consents == 0 && pending == map[]
    {
      this.stored, consents, pending := stored, 0, map[];
    }

    // Stores a token of the authorization server, with what it omits taken from the previous grant.
    method SaveToken(token: Token, previous: Option<Grant>, now: int) returns (access: Option<string>)
      modifies this`stored, this`consents
      ensures token.access == "" ==> access == None && stored == old(stored) && consents == old(consents)
      ensures token.access != "" ==>
                && access == Some(token.access) && stored.Some?
                && stored.value.access == token.access && stored.value.expiresAt == now + token.expiresIn
                && (token.refresh != "" ==> stored.value.refresh == token.refresh)
                && (token.refresh == "" ==> stored.value.refresh == if previous.Some? then previous.value.refresh else "")
                && consents == old(consents) + (if previous.None? then 1 else 0)
                && stored.value.consent == (if previous.Some? then previous.value.consent else consents)
    {
      if token.access == "" {
        return None;
      }
      if previous.Some? {
        stored := Some(FromToken(token, previous.value.refresh, previous.value.scope, now, previous.value.consent));
      } else {
        consents := consents + 1;
        stored := Some(FromToken(token, "", "", now, consents));
      }
      access := Some(token.access);
    }

    // Expires the rejected access token, unless another replaced it meanwhile.
    method InvalidateAccess(rejected: string)
      modifies this`stored
      ensures old(stored).None? ==> stored.None?
      ensures old(stored).Some? ==> stored.Some? && stored.value == old(stored).value.(expiresAt := stored.value.expiresAt)
      ensures old(stored).Some? ==> stored.value.expiresAt == if old(stored).value.access == rejected then 0 else old(stored).value.expiresAt
    {
      if stored.Some? && stored.value.access == rejected {
        stored := Some(stored.value.(expiresAt := 0));
      }
    }

    // Answers a pending authorization, once and within ten minutes.
    method Callback(state: nat, code: string, declined: bool, now: int) returns (ok: bool)
      modifies this`pending
      ensures ok <==> state in old(pending) && old(pending)[state].answer.None? && now - old(pending)[state].created <= 600
      ensures pending.Keys == old(pending).Keys
      ensures forall k :: k in pending && (k != state || !ok) ==> pending[k] == old(pending)[k]
      ensures ok ==> pending[state] == old(pending)[state].(answer := Some(if declined then "" else code))
    {
      if state !in pending || pending[state].answer.Some? || now - pending[state].created > 600 {
        return false;
      }
      pending := pending[state := pending[state].(answer := Some(if declined then "" else code))];
      ok := true;
    }
  }
}
