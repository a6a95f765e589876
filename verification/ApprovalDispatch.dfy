/**
 * From an approval credential to the one remote call that it pays for.
 *
 * Credentials live in a store that all replicas share and that consumes them atomically.  The
 * execute route checks a credential, consumes it and starts a task that carries it as a context;
 * a chat call consumes one while it is validated.  The code between two awaits is one step, and a
 * request or a call may end at any await.
 */
module ApprovalDispatch {
  import opened Wrappers
  import opened Texts
  import opened CanonicalJson
  import opened ApprovalPolicy

  // The group names of configured endpoints, SHA-256, and the parser of JSON texts.
  datatype Env = Env(names: map<string, string>, sha: string -> string, loads: string -> Option<Json>)

  // Distinct texts have distinct digests, and parsing a canonical text recovers its value.
  ghost predicate Honest(env: Env) {
    && (forall x, y :: env.sha(x) == env.sha(y) ==> x == y)
    && forall v :: UniqueKeys(v) ==>
         var parsed := env.loads(Canonical(v));
         parsed.Some? && UniqueKeys(parsed.value) && Denote(parsed.value) == Denote(v)
  }

  ghost function Parsed(text: string): Option<Json> {
    if exists v :: UniqueKeys(v) && Canonical(v) == text then
      var v :| UniqueKeys(v) && Canonical(v) == text;
      Some(v)
    else None
  }

  /** Such environments exist, since canonical texts determine their values. */
  lemma HonestEnvironmentsExist()
    ensures exists env :: Honest(env)
  {
    var env := Env(map[], text => text, text => Parsed(text));
    forall v | UniqueKeys(v) ensures env.loads(Canonical(v)).Some? && UniqueKeys(env.loads(Canonical(v)).value)
                                     && Denote(env.loads(Canonical(v)).value) == Denote(v) {
      CanonicalTextIsANormalForm(v, Parsed(Canonical(v)).value);
    }
    assert Honest(env);
  }

  const TOKEN_FIELD := "approval_token"

  function CanonicalCall(arguments: Fields): string { Canonical(Obj(Remove(arguments, TOKEN_FIELD))) }

  function HashOf(env: Env, arguments: Fields): string { env.sha(CanonicalCall(arguments)) }

  // ---------- Credentials, calls and dispatches ----------

  // What a person approved; its texts are stored stripped.
  datatype Credential = Credential(user: string, server: string, tool: string, arguments: Fields)

  // What the execute route leaves for the call that it starts.
  datatype Context = NoContext | Consumed(id: nat, user: string, target: (string, string), hash: string)

  datatype Call = Call(user: string, server: string, tool: string, arguments: Fields, context: Context, token: Option<nat>)

  datatype Request = Request(user: string, token: nat, server: string, tool: string, text: string, hash: string)

  // What the remote annotations of a tool say about mutation.
  datatype Evidence = Evidence(destructiveHint: Option<bool>)

  const VerbKeys := ["operation", "command", "action", "method", "verb"]

  // The texts that the arguments give under these keys.
  function TextsUnder(arguments: Fields, keys: seq<string>): seq<string> {
    if keys == [] then []
    else
      var given, rest := DenoteFields(arguments), TextsUnder(arguments, keys[1..]);
      if keys[0] in given && given[keys[0]].StrValue? then [given[keys[0]].s] + rest else rest
  }

  predicate GivesText(arguments: Fields, key: string, text: string) {
    key in DenoteFields(arguments) && DenoteFields(arguments)[key] == StrValue(text)
  }

  datatype Authority = ApprovedInAdvance(group: Group) | VerifiedRead(group: Group, evidence: Evidence) | ApprovedBy(id: nat)

  datatype Dispatch = Dispatch(call: Call, authority: Authority, spent: Option<nat>)

  datatype Pc =
    | Checking(request: Request, arguments: Fields)
    | Consuming(request: Request, arguments: Fields)
    | Calling(call: Call)
    | Sending(dispatch: Dispatch)

  datatype State = State(
    issued: map<nat, Credential>,
    live: set<nat>,                 // credentials that are neither expired nor consumed
    tasks: map<nat, Pc>,
    next: nat,
    dispatches: seq<Dispatch>)

  const Initial := State(map[], {}, map[], 0, [])

  datatype Event =
    | Issued(credential: Credential)
    | Expired(id: nat)
    | Requested(request: Request, readOnly: bool, known: bool)
    | ChatCalled(user: string, fullName: string, arguments: Fields, token: Option<nat>)
    | CheckReplied(task: nat)
    | ConsumeReplied(task: nat, room: bool)
    | Validated(task: nat, group: Option<Group>, evidence: Evidence)   // under the replica's policy for the server
    | Sent(task: nat)
    | Dropped(task: nat, applied: bool)      // an error, a cancellation or a crash

  // ---------- Steps ----------

  // A credential is found under its user's own key.
  predicate Found(s: State, user: string, id: nat) {
    id in s.live && id in s.issued && s.issued[id].user == Strip(user)
  }

  predicate Matches(env: Env, c: Credential, user: string, server: string, tool: string, hash: string) {
    c.user == Strip(user) && c.server == Strip(server) && c.tool == Strip(tool) && HashOf(env, c.arguments) == hash
  }

  // Consumption precedes validation, so a mismatched attempt burns the credential.
  function Consume(s: State, user: string, id: nat): State {
    if Found(s, user, id) then s.(live := s.live - {id}) else s
  }

  function End(s: State, t: nat): State { s.(tasks := s.tasks - {t}) }

  function Move(s: State, t: nat, pc: Pc): State { s.(tasks := s.tasks[t := pc]) }

  function Begin(s: State, pc: Pc): State { s.(tasks := s.tasks[s.next := pc], next := s.next + 1) }

  function RequestStep(env: Env, s: State, r: Request, readOnly: bool, known: bool): State {
    var parsed := env.loads(r.text);
    if parsed.Some? && parsed.value.Obj? && env.sha(r.text) == r.hash && !readOnly
       && !Contains(r.server, SEPARATOR) && r.tool != "connect" && known
    then Begin(s, Checking(r, parsed.value.fields))
    else s
  }

  function ChatStep(s: State, user: string, fullName: string, arguments: Fields, token: Option<nat>): State {
    var parts := Partition(fullName);
    if parts.None? then s
    else Begin(s, Calling(Call(user, parts.value.0, parts.value.1, arguments, NoContext, token)))
  }

  function CheckStep(env: Env, s: State, t: nat, r: Request, arguments: Fields): State {
    if Found(s, r.user, r.token) && Matches(env, s.issued[r.token], r.user, r.server, r.tool, r.hash)
    then Move(s, t, Consuming(r, arguments)) else End(s, t)
  }

  // The call that a consumed request starts, under the name of its server and tool.
  function CallOf(env: Env, r: Request, arguments: Fields): Option<Call> {
    var parts := Partition(FullName(r.server, r.tool));
    var context := Consumed(r.token, r.user, Target(env.names, r.server, r.tool), HashOf(env, arguments));
    if parts.None? then None
    else Some(Call(r.user, parts.value.0, parts.value.1, arguments, context, None))
  }

  function ConsumeStep(env: Env, s: State, t: nat, r: Request, arguments: Fields, room: bool): State {
    var call := CallOf(env, r, arguments);
    var valid := Found(s, r.user, r.token) && Matches(env, s.issued[r.token], r.user, r.server, r.tool, r.hash);
    var consumed := Consume(s, r.user, r.token);
    if valid && room && call.Some? then Move(consumed, t, Calling(call.value)) else End(consumed, t)
  }

  // What the direct execution of a call has already spent.
  function Carried(call: Call): Option<nat> {
    if call.context.Consumed? then Some(call.context.id) else None
  }

  function PolicyFor(env: Env, call: Call, group: Option<Group>): Policy {
    if group.Some? then ForTool(group.value, Target(env.names, call.server, call.tool).1) else ApprovalRequired
  }

  predicate Mutates(call: Call, evidence: Evidence) {
    IsMutating(call.tool, TextsUnder(call.arguments, VerbKeys), evidence.destructiveHint)
  }

  function ValidateStep(env: Env, s: State, t: nat, call: Call, group: Option<Group>, evidence: Evidence): State {
    var policy := PolicyFor(env, call, group);
    if policy.AutoApprove? then Move(s, t, Sending(Dispatch(call, ApprovedInAdvance(group.value), Carried(call))))
    else if policy.ReadOnly? then
      if Mutates(call, evidence) then End(s, t)
      else Move(s, t, Sending(Dispatch(call, VerifiedRead(group.value, evidence), Carried(call))))
    else if call.user == "" then End(s, t)
    else if call.context.Consumed? then
      var k := call.context;
      if (k.user, k.target, k.hash) == (call.user, Target(env.names, call.server, call.tool), HashOf(env, call.arguments))
      then Move(s, t, Sending(Dispatch(call, ApprovedBy(k.id), Some(k.id)))) else End(s, t)
    else if call.token.None? then End(s, t)
    else
      var id := call.token.value;
      var consumed := Consume(s, call.user, id);
      if Found(s, call.user, id)
         && Matches(env, s.issued[id], call.user, call.server, call.tool, HashOf(env, call.arguments))
      then Move(consumed, t, Sending(Dispatch(call, ApprovedBy(id), Some(id)))) else End(consumed, t)
  }

  // The remote call is sent once, and its task ends with it.
  function SendStep(s: State, t: nat, d: Dispatch): State {
    End(s, t).(dispatches := s.dispatches + [d])
  }

  // A consumption in flight may still take effect when its task ends.
  function DropStep(s: State, t: nat, pc: Pc, applied: bool): State {
    match pc
    case Consuming(r, _) => End(if applied then Consume(s, r.user, r.token) else s, t)
    case Calling(call) =>
      End(if applied && call.token.Some? then Consume(s, call.user, call.token.value) else s, t)
    case _ => End(s, t)
  }

  function TaskStep(env: Env, s: State, t: nat, pc: Pc, ev: Event): State {
    match (ev, pc)
    case (CheckReplied(_), Checking(r, arguments)) => CheckStep(env, s, t, r, arguments)
    case (ConsumeReplied(_, room), Consuming(r, arguments)) => ConsumeStep(env, s, t, r, arguments, room)
    case (Validated(_, group, evidence), Calling(call)) => ValidateStep(env, s, t, call, group, evidence)
    case (Sent(_), Sending(d)) => SendStep(s, t, d)
    case (Dropped(_, applied), _) => DropStep(s, t, pc, applied)
    case _ => s
  }

  function IssueStep(s: State, c: Credential): State {
    s.(issued := s.issued[s.next := c], live := s.live + {s.next}, next := s.next + 1)
  }

  function Step(env: Env, s: State, ev: Event): State {
    match ev
    case Issued(c) => IssueStep(s, c)
    case Expired(id) => s.(live := s.live - {id})
    case Requested(r, readOnly, known) => RequestStep(env, s, r, readOnly, known)
    case ChatCalled(user, fullName, arguments, token) => ChatStep(s, user, fullName, arguments, token)
    case _ => if ev.task in s.tasks then TaskStep(env, s, ev.task, s.tasks[ev.task], ev) else s
  }

  function ExecFrom(env: Env, s: State, evs: seq<Event>): State
    decreases |evs|
  {
    if evs == [] then s else Step(env, ExecFrom(env, s, evs[..|evs| - 1]), evs[|evs| - 1])
  }

  function Exec(env: Env, evs: seq<Event>): State { ExecFrom(env, Initial, evs) }

  // Credentials and calls hold dictionaries.
  ghost predicate Proper(env: Env, ev: Event) {
    match ev
    case Issued(c) => UniqueKeysInFields(c.arguments)
    case Requested(r, _, _) => env.loads(r.text).Some? ==> UniqueKeys(env.loads(r.text).value)
    case ChatCalled(_, _, arguments, _) => UniqueKeysInFields(arguments)
    case _ => true
  }

  ghost predicate AllProper(env: Env, evs: seq<Event>) { forall ev :: ev in evs ==> Proper(env, ev) }

  // ---------- What every step keeps ----------

  // The credential that a task holds in exchange for one it consumed.
  function Holds(pc: Pc): Option<nat> {
    match pc
    case Calling(call) => Carried(call)
    case Sending(d) => d.spent
    case _ => None
  }

  // A server and a tool that the credential names, up to the normalization of targets.
  ghost predicate SameTarget(env: Env, c: Credential, target: (string, string)) {
    exists server, tool :: Strip(server) == c.server && Strip(tool) == c.tool && Target(env.names, server, tool) == target
  }

  ghost predicate ContextOk(env: Env, s: State, k: Context) {
    k.Consumed? ==>
      && k.id in s.issued
      && Strip(k.user) == s.issued[k.id].user
      && SameTarget(env, s.issued[k.id], k.target)
      && k.hash == HashOf(env, s.issued[k.id].arguments)
  }

  // The credential was issued for this user, server, tool and arguments.
  ghost predicate PaidBy(env: Env, call: Call, c: Credential) {
    && Strip(call.user) == c.user
    && SameTarget(env, c, Target(env.names, call.server, call.tool))
    && HashOf(env, call.arguments) == HashOf(env, c.arguments)
  }

  // The direct execution of a credential goes to the server and tool that it names, unless the
  // server's name ends in an underscore.
  predicate KeepsNames(call: Call, c: Credential) {
    !EndsBlurred(c.server) ==> Strip(call.server) == c.server && Strip(call.tool) == c.tool
  }

  // A dispatch without a credential of its own is the operator's decision.
  predicate Exempt(env: Env, d: Dispatch) {
    match d.authority
    case ApprovedInAdvance(g) => PolicyFor(env, d.call, Some(g)).AutoApprove?
    case VerifiedRead(g, evidence) => PolicyFor(env, d.call, Some(g)).ReadOnly? && !Mutates(d.call, evidence)
    case ApprovedBy(_) => true
  }

  ghost predicate DispatchOk(env: Env, s: State, d: Dispatch) {
    && UniqueKeysInFields(d.call.arguments)
    && (d.call.context.Consumed? ==>
          d.spent == Some(d.call.context.id) && d.call.context.id in s.issued && KeepsNames(d.call, s.issued[d.call.context.id]))
    && Exempt(env, d)
    && (d.authority.ApprovedBy? ==>
          d.spent == Some(d.authority.id) && d.authority.id in s.issued && PaidBy(env, d.call, s.issued[d.authority.id]))
  }

  ghost predicate PcOk(env: Env, s: State, pc: Pc) {
    && (Holds(pc).Some? ==> Spent(s, Holds(pc).value))
    && match pc
       case Calling(call) =>
         && ContextOk(env, s, call.context) && UniqueKeysInFields(call.arguments)
         && (call.context.Consumed? ==> KeepsNames(call, s.issued[call.context.id]))
       case Sending(d) => DispatchOk(env, s, d)
       case Checking(r, arguments) => RequestOk(env, r, arguments)
       case Consuming(r, arguments) => RequestOk(env, r, arguments)
  }

  ghost predicate RequestOk(env: Env, r: Request, arguments: Fields) {
    && env.sha(r.text) == r.hash && env.loads(r.text) == Some(Obj(arguments)) && UniqueKeysInFields(arguments)
    && !Contains(r.server, SEPARATOR)
  }

  predicate Spent(s: State, id: nat) { id in s.issued && id !in s.live }

  ghost predicate Inv(env: Env, s: State) {
    && s.live <= s.issued.Keys
    && (forall id :: id in s.issued ==> id < s.next && UniqueKeysInFields(s.issued[id].arguments))
    && (forall t :: t in s.tasks ==> t < s.next && PcOk(env, s, s.tasks[t]))
    && (forall t, u :: t in s.tasks && u in s.tasks && t != u && Holds(s.tasks[t]).Some? ==> Holds(s.tasks[t]) != Holds(s.tasks[u]))
    && (forall i :: 0 <= i < |s.dispatches| ==> SentOk(env, s, s.dispatches[i]))
    && (forall i, j :: 0 <= i < j < |s.dispatches| && s.dispatches[i].spent.Some? ==> s.dispatches[i].spent != s.dispatches[j].spent)
  }

  ghost predicate SentOk(env: Env, s: State, d: Dispatch) {
    && DispatchOk(env, s, d)
    && (d.spent.Some? ==> Spent(s, d.spent.value) && forall t :: t in s.tasks ==> Holds(s.tasks[t]) != d.spent)
  }

  // Credentials are only added and only spent.
  ghost predicate Later(s: State, r: State) {
    && s.next <= r.next
    && (forall id :: id in s.issued ==> id in r.issued && r.issued[id] == s.issued[id])
    && (forall id :: id in r.live ==> id in r.issued && (id in s.live || id >= s.next))
  }

  lemma PcOkLater(env: Env, s: State, r: State, pc: Pc)
    requires Inv(env, s) && Later(s, r) && PcOk(env, s, pc)
    ensures PcOk(env, r, pc)
  {
    if Holds(pc).Some? {
      assert Spent(s, Holds(pc).value);
    }
  }

  lemma SentOkLater(env: Env, s: State, r: State, d: Dispatch)
    requires Inv(env, s) && Later(s, r) && SentOk(env, s, d)
    requires forall t :: t in r.tasks ==> Holds(r.tasks[t]) != d.spent || d.spent.None?
    ensures SentOk(env, r, d)
  {
  }

  // One task moves on, ends, or takes up a credential that was live.
  lemma TaskMoves(env: Env, s: State, r: State, t: nat)
    requires Inv(env, s) && Later(s, r) && t in s.tasks
    requires r.issued == s.issued && r.next == s.next && r.dispatches == s.dispatches
    requires forall u :: u != t ==> (u in r.tasks <==> u in s.tasks) && (u in s.tasks ==> r.tasks[u] == s.tasks[u])
    requires t in r.tasks ==> PcOk(env, r, r.tasks[t])
    requires t in r.tasks && Holds(r.tasks[t]).Some? ==> Holds(r.tasks[t]) == Holds(s.tasks[t]) || Holds(r.tasks[t]).value in s.live
    ensures Inv(env, r)
  {
    forall u | u in r.tasks ensures PcOk(env, r, r.tasks[u]) {
      if u != t {
        PcOkLater(env, s, r, r.tasks[u]);
      }
    }
    forall i | 0 <= i < |r.dispatches| ensures SentOk(env, r, r.dispatches[i]) {
      var d := r.dispatches[i];
      assert SentOk(env, s, d);
      SentOkLater(env, s, r, d);
    }
    OthersHold(env, s, r, t);
  }

  lemma OthersHold(env: Env, s: State, r: State, t: nat)
    requires Inv(env, s) && t in s.tasks
    requires forall u :: u != t ==> (u in r.tasks <==> u in s.tasks) && (u in s.tasks ==> r.tasks[u] == s.tasks[u])
    requires t in r.tasks && Holds(r.tasks[t]).Some? ==> Holds(r.tasks[t]) == Holds(s.tasks[t]) || Holds(r.tasks[t]).value in s.live
    ensures forall u, v :: u in r.tasks && v in r.tasks && u != v && Holds(r.tasks[u]).Some? ==> Holds(r.tasks[u]) != Holds(r.tasks[v])
  {
    forall u | u in s.tasks ensures PcOk(env, s, s.tasks[u]) {
    }
  }

  lemma EndKeeps(env: Env, s: State, t: nat, user: string, id: nat, consumes: bool)
    requires Inv(env, s) && t in s.tasks
    ensures Inv(env, End(if consumes then Consume(s, user, id) else s, t))
  {
    TaskMoves(env, s, End(if consumes then Consume(s, user, id) else s, t), t);
  }

  lemma BeginKeeps(env: Env, s: State, pc: Pc)
    requires Inv(env, s) && Holds(pc) == None && PcOk(env, s, pc)
    ensures Inv(env, Begin(s, pc))
  {
    var r := Begin(s, pc);
    forall u | u in r.tasks ensures PcOk(env, r, r.tasks[u]) {
      PcOkLater(env, s, r, r.tasks[u]);
    }
    forall i | 0 <= i < |r.dispatches| ensures SentOk(env, r, r.dispatches[i]) {
      assert SentOk(env, s, s.dispatches[i]);
      SentOkLater(env, s, r, s.dispatches[i]);
    }
  }

  lemma CredentialsKeep(env: Env, s: State, r: State)
    requires Inv(env, s) && Later(s, r) && r.tasks == s.tasks && r.dispatches == s.dispatches
    requires forall id :: id in r.issued ==> id < r.next && UniqueKeysInFields(r.issued[id].arguments)
    ensures Inv(env, r)
  {
    forall u | u in r.tasks ensures PcOk(env, r, r.tasks[u]) {
      PcOkLater(env, s, r, r.tasks[u]);
    }
    forall i | 0 <= i < |r.dispatches| ensures SentOk(env, r, r.dispatches[i]) {
      assert SentOk(env, s, s.dispatches[i]);
      SentOkLater(env, s, r, s.dispatches[i]);
    }
  }

  lemma SendKeeps(env: Env, s: State, t: nat)
    requires Inv(env, s) && t in s.tasks && s.tasks[t].Sending?
    ensures Inv(env, SendStep(s, t, s.tasks[t].dispatch))
  {
    var r := SendStep(s, t, s.tasks[t].dispatch);
    var d := s.tasks[t].dispatch;
    assert PcOk(env, s, s.tasks[t]);
    forall u | u in r.tasks ensures PcOk(env, r, r.tasks[u]) {
      PcOkLater(env, s, r, r.tasks[u]);
    }
    forall i | 0 <= i < |r.dispatches| ensures SentOk(env, r, r.dispatches[i]) {
      if i < |s.dispatches| {
        assert SentOk(env, s, s.dispatches[i]);
        SentOkLater(env, s, r, s.dispatches[i]);
      }
    }
    forall i | 0 <= i < |s.dispatches| && s.dispatches[i].spent.Some? ensures s.dispatches[i].spent != d.spent {
      assert SentOk(env, s, s.dispatches[i]);
      assert Holds(s.tasks[t]) == d.spent;
    }
  }

  // ---------- Canonical arguments ----------

  /** With collision-free digests, equal hashes mean equal arguments up to the order of keys. */
  lemma EqualHashesMeanEqualArguments(env: Env, a: Fields, b: Fields)
    requires Honest(env) && UniqueKeysInFields(a) && UniqueKeysInFields(b)
    ensures HashOf(env, a) == HashOf(env, b) <==> DenoteFields(a) - {TOKEN_FIELD} == DenoteFields(b) - {TOKEN_FIELD}
  {
    RemoveDenotes(a, TOKEN_FIELD);
    RemoveDenotes(b, TOKEN_FIELD);
    CanonicalTextIsANormalForm(Obj(Remove(a, TOKEN_FIELD)), Obj(Remove(b, TOKEN_FIELD)));
  }

  // A text with the credential's hash holds the credential's arguments.
  lemma TextHoldsTheArguments(env: Env, text: string, arguments: Fields, approved: Fields)
    requires Honest(env) && UniqueKeysInFields(approved) && UniqueKeysInFields(arguments)
    requires env.loads(text) == Some(Obj(arguments)) && env.sha(text) == HashOf(env, approved)
    ensures HashOf(env, arguments) == HashOf(env, approved)
  {
    RemoveDenotes(approved, TOKEN_FIELD);
    var canonical := Obj(Remove(approved, TOKEN_FIELD));
    assert UniqueKeys(canonical);
    assert text == Canonical(canonical);
    assert DenoteFields(arguments) == DenoteFields(approved) - {TOKEN_FIELD};
    EqualHashesMeanEqualArguments(env, arguments, approved);
  }

  // ---------- Names ----------

  /** A request whose server cannot blur the separator is sent under its own server and tool. */
  lemma DirectCallsKeepTheirNames(env: Env, r: Request, arguments: Fields)
    requires !Contains(r.server + "_", SEPARATOR)
    ensures CallOf(env, r, arguments).Some?
    ensures CallOf(env, r, arguments).value.server == r.server && CallOf(env, r, arguments).value.tool == r.tool
  {
    FullNamesSplit(r.server, r.tool);
  }

  lemma ConsumedCallsKeepTheirNames(env: Env, r: Request, arguments: Fields, c: Credential)
    requires !Contains(r.server, SEPARATOR) && c.server == Strip(r.server) && c.tool == Strip(r.tool)
    ensures CallOf(env, r, arguments).Some? ==> KeepsNames(CallOf(env, r, arguments).value, c)
  {
    if EndsBlurred(r.server) {
      StrippingKeepsTheEnd(r.server);
    } else {
      GuardedNamesAreClear(r.server);
      DirectCallsKeepTheirNames(env, r, arguments);
    }
  }

  // ---------- Each step ----------

  lemma ConsumeKeeps(env: Env, s: State, t: nat, room: bool)
    requires Honest(env) && Inv(env, s) && t in s.tasks && s.tasks[t].Consuming?
    ensures Inv(env, ConsumeStep(env, s, t, s.tasks[t].request, s.tasks[t].arguments, room))
  {
    var r, arguments := s.tasks[t].request, s.tasks[t].arguments;
    assert PcOk(env, s, s.tasks[t]);
    var call := CallOf(env, r, arguments);
    if Found(s, r.user, r.token) && Matches(env, s.issued[r.token], r.user, r.server, r.tool, r.hash) && room && call.Some? {
      TextHoldsTheArguments(env, r.text, arguments, s.issued[r.token].arguments);
      ConsumedCallsKeepTheirNames(env, r, arguments, s.issued[r.token]);
      var consumed := Consume(s, r.user, r.token);
      assert SameTarget(env, s.issued[r.token], Target(env.names, r.server, r.tool));
      TaskMoves(env, s, Move(consumed, t, Calling(call.value)), t);
    } else {
      EndKeeps(env, s, t, r.user, r.token, true);
    }
  }

  lemma ExemptKeeps(env: Env, s: State, t: nat, authority: Authority)
    requires Inv(env, s) && t in s.tasks && s.tasks[t].Calling? && !authority.ApprovedBy?
    requires Exempt(env, Dispatch(s.tasks[t].call, authority, Carried(s.tasks[t].call)))
    ensures Inv(env, Move(s, t, Sending(Dispatch(s.tasks[t].call, authority, Carried(s.tasks[t].call)))))
  {
    assert PcOk(env, s, s.tasks[t]);
    TaskMoves(env, s, Move(s, t, Sending(Dispatch(s.tasks[t].call, authority, Carried(s.tasks[t].call)))), t);
  }

  lemma ContextKeeps(env: Env, s: State, t: nat)
    requires Inv(env, s) && t in s.tasks && s.tasks[t].Calling? && s.tasks[t].call.context.Consumed?
    requires var call := s.tasks[t].call;
             (call.context.user, call.context.target, call.context.hash) ==
             (call.user, Target(env.names, call.server, call.tool), HashOf(env, call.arguments))
    ensures var call := s.tasks[t].call;
            Inv(env, Move(s, t, Sending(Dispatch(call, ApprovedBy(call.context.id), Some(call.context.id)))))
  {
    var call := s.tasks[t].call;
    assert PcOk(env, s, s.tasks[t]);
    TaskMoves(env, s, Move(s, t, Sending(Dispatch(call, ApprovedBy(call.context.id), Some(call.context.id)))), t);
  }

  lemma TokenKeeps(env: Env, s: State, t: nat)
    requires Inv(env, s) && t in s.tasks && s.tasks[t].Calling?
    requires s.tasks[t].call.context == NoContext && s.tasks[t].call.token.Some?
    requires var call, id := s.tasks[t].call, s.tasks[t].call.token.value;
             Found(s, call.user, id) && Matches(env, s.issued[id], call.user, call.server, call.tool, HashOf(env, call.arguments))
    ensures var call, id := s.tasks[t].call, s.tasks[t].call.token.value;
            Inv(env, Move(Consume(s, call.user, id), t, Sending(Dispatch(call, ApprovedBy(id), Some(id)))))
  {
    var call, id := s.tasks[t].call, s.tasks[t].call.token.value;
    assert PcOk(env, s, s.tasks[t]);
    assert SameTarget(env, s.issued[id], Target(env.names, call.server, call.tool));
    TaskMoves(env, s, Move(Consume(s, call.user, id), t, Sending(Dispatch(call, ApprovedBy(id), Some(id)))), t);
  }

  lemma ValidateKeeps(env: Env, s: State, t: nat, group: Option<Group>, evidence: Evidence)
    requires Inv(env, s) && t in s.tasks && s.tasks[t].Calling?
    ensures Inv(env, ValidateStep(env, s, t, s.tasks[t].call, group, evidence))
  {
    var call := s.tasks[t].call;
    var policy := PolicyFor(env, call, group);
    if policy.AutoApprove? {
      ExemptKeeps(env, s, t, ApprovedInAdvance(group.value));
    } else if policy.ReadOnly? && !Mutates(call, evidence) {
      ExemptKeeps(env, s, t, VerifiedRead(group.value, evidence));
    } else if policy.ReadOnly? || call.user == "" {
      EndKeeps(env, s, t, "", 0, false);
    } else if call.context.Consumed? {
      var k := call.context;
      if (k.user, k.target, k.hash) == (call.user, Target(env.names, call.server, call.tool), HashOf(env, call.arguments)) {
        ContextKeeps(env, s, t);
      } else {
        EndKeeps(env, s, t, "", 0, false);
      }
    } else if call.token.None? {
      EndKeeps(env, s, t, "", 0, false);
    } else if Found(s, call.user, call.token.value)
              && Matches(env, s.issued[call.token.value], call.user, call.server, call.tool, HashOf(env, call.arguments)) {
      TokenKeeps(env, s, t);
    } else {
      EndKeeps(env, s, t, call.user, call.token.value, true);
    }
  }

  lemma DropKeeps(env: Env, s: State, t: nat, applied: bool)
    requires Inv(env, s) && t in s.tasks
    ensures Inv(env, DropStep(s, t, s.tasks[t], applied))
  {
    match s.tasks[t]
    case Consuming(r, _) => EndKeeps(env, s, t, r.user, r.token, applied);
    case Calling(call) =>
      if call.token.Some? {
        EndKeeps(env, s, t, call.user, call.token.value, applied);
      } else {
        EndKeeps(env, s, t, "", 0, false);
      }
    case _ => EndKeeps(env, s, t, "", 0, false);
  }

  lemma CheckKeeps(env: Env, s: State, t: nat)
    requires Inv(env, s) && t in s.tasks && s.tasks[t].Checking?
    ensures Inv(env, CheckStep(env, s, t, s.tasks[t].request, s.tasks[t].arguments))
  {
    assert PcOk(env, s, s.tasks[t]);
    TaskMoves(env, s, CheckStep(env, s, t, s.tasks[t].request, s.tasks[t].arguments), t);
  }

  lemma TaskKeeps(env: Env, s: State, t: nat, ev: Event)
    requires Honest(env) && Inv(env, s) && t in s.tasks
    ensures Inv(env, TaskStep(env, s, t, s.tasks[t], ev))
  {
    match (ev, s.tasks[t])
    case (CheckReplied(_), Checking(_, _)) => CheckKeeps(env, s, t);
    case (ConsumeReplied(_, room), Consuming(_, _)) => ConsumeKeeps(env, s, t, room);
    case (Validated(_, group, evidence), Calling(_)) => ValidateKeeps(env, s, t, group, evidence);
    case (Sent(_), Sending(_)) => SendKeeps(env, s, t);
    case (Dropped(_, applied), _) => DropKeeps(env, s, t, applied);
    case _ =>
  }

  lemma StepKeeps(env: Env, s: State, ev: Event)
    requires Honest(env) && Inv(env, s) && Proper(env, ev)
    ensures Inv(env, Step(env, s, ev))
  {
    match ev
    case Issued(c) => CredentialsKeep(env, s, IssueStep(s, c));
    case Expired(id) => CredentialsKeep(env, s, s.(live := s.live - {id}));
    case Requested(r, readOnly, known) =>
      if RequestStep(env, s, r, readOnly, known) != s {
        BeginKeeps(env, s, Checking(r, env.loads(r.text).value.fields));
      }
    case ChatCalled(user, fullName, arguments, token) =>
      var parts := Partition(fullName);
      if parts.Some? {
        BeginKeeps(env, s, Calling(Call(user, parts.value.0, parts.value.1, arguments, NoContext, token)));
      }
    case _ =>
      if ev.task in s.tasks {
        TaskKeeps(env, s, ev.task, ev);
      }
  }

  lemma {:induction false} ExecKeeps(env: Env, evs: seq<Event>)
    requires Honest(env) && AllProper(env, evs)
    ensures Inv(env, Exec(env, evs))
    decreases |evs|
  {
    if evs != [] {
      var n := |evs| - 1;
      assert forall ev :: ev in evs[..n] ==> ev in evs;
      ExecKeeps(env, evs[..n]);
      assert Proper(env, evs[n]);
      StepKeeps(env, Exec(env, evs[..n]), evs[n]);
    }
  }

  // ---------- What follows over whole runs ----------

  // A direct execution counts as paid for by the credential it consumed, even when its tool is
  // approved in advance.
  /** Each credential yields at most one dispatch, and never one while it is still live. */
  lemma EachCredentialDispatchesOnce(env: Env, evs: seq<Event>, i: nat, j: nat)
    requires Honest(env) && AllProper(env, evs)
    ensures var s := Exec(env, evs);
            i < |s.dispatches| && j < |s.dispatches| ==>
              var d := s.dispatches[i];
              && (d.spent.Some? ==> Spent(s, d.spent.value))
              && (d.spent.Some? && d.spent == s.dispatches[j].spent ==> i == j)
              && (d.call.context.Consumed? ==> d.spent == Some(d.call.context.id))
  {
    ExecKeeps(env, evs);
    var s := Exec(env, evs);
    if i < |s.dispatches| {
      assert SentOk(env, s, s.dispatches[i]);
    }
  }

  /**
   * A dispatch that is neither approved in advance nor a verified read was paid for by a credential
   * of the same user, target and arguments.
   */
  lemma ApprovedDispatchesWerePaidFor(env: Env, evs: seq<Event>, i: nat)
    requires Honest(env) && AllProper(env, evs)
    ensures var s := Exec(env, evs);
            i < |s.dispatches| && s.dispatches[i].authority.ApprovedBy? ==>
              var d := s.dispatches[i];
              && d.spent == Some(d.authority.id) && d.authority.id in s.issued
              && var c := s.issued[d.authority.id];
                 && PaidBy(env, d.call, c)
                 && DenoteFields(d.call.arguments) - {TOKEN_FIELD} == DenoteFields(c.arguments) - {TOKEN_FIELD}
  {
    ExecKeeps(env, evs);
    var s := Exec(env, evs);
    if i < |s.dispatches| && s.dispatches[i].authority.ApprovedBy? {
      var d := s.dispatches[i];
      assert SentOk(env, s, d);
      EqualHashesMeanEqualArguments(env, d.call.arguments, s.issued[d.authority.id].arguments);
    }
  }

  /** A dispatch without a credential of its own goes to a tool that its group exposes and the operator exempted. */
  lemma ExemptDispatchesAreExposed(env: Env, evs: seq<Event>, i: nat)
    requires Honest(env) && AllProper(env, evs)
    ensures var s := Exec(env, evs);
            i < |s.dispatches| && !s.dispatches[i].authority.ApprovedBy? ==>
              var d := s.dispatches[i];
              && Exposed(d.authority.group, Target(env.names, d.call.server, d.call.tool).1)
              && (if d.authority.ApprovedInAdvance? then PolicyFor(env, d.call, Some(d.authority.group)).AutoApprove?
                  else PolicyFor(env, d.call, Some(d.authority.group)).ReadOnly? && !Mutates(d.call, d.authority.evidence))
  {
    ExecKeeps(env, evs);
    var s := Exec(env, evs);
    if i < |s.dispatches| && !s.dispatches[i].authority.ApprovedBy? {
      var d := s.dispatches[i];
      assert SentOk(env, s, d);
      OnlyExposedToolsAreExempt(d.authority.group, Target(env.names, d.call.server, d.call.tool).1);
    }
  }

  /**
   * Even when its tool needs no approval, the direct execution of a credential is sent to the server
   * and the tool that the credential names, unless the server's name ends in an underscore.
   */
  lemma DirectDispatchesKeepTheirNames(env: Env, evs: seq<Event>, i: nat)
    requires Honest(env) && AllProper(env, evs)
    ensures var s := Exec(env, evs);
            i < |s.dispatches| && s.dispatches[i].call.context.Consumed? ==>
              var call := s.dispatches[i].call;
              call.context.id in s.issued && KeepsNames(call, s.issued[call.context.id])
  {
    ExecKeeps(env, evs);
    var s := Exec(env, evs);
    if i < |s.dispatches| {
      assert SentOk(env, s, s.dispatches[i]);
    }
  }

  // The dispatches that some credential paid for.
  function PaidDispatches(ds: seq<Dispatch>): set<nat> {
    set i | 0 <= i < |ds| && ds[i].spent.Some? :: i
  }

  function SpentIds(ds: seq<Dispatch>): set<nat> {
    set i | 0 <= i < |ds| && ds[i].spent.Some? :: ds[i].spent.value
  }

  lemma {:induction false} PaidDispatchesMatchIds(ds: seq<Dispatch>)
    requires forall i, j :: 0 <= i < j < |ds| && ds[i].spent.Some? ==> ds[i].spent != ds[j].spent
    ensures |PaidDispatches(ds)| == |SpentIds(ds)|
    decreases |ds|
  {
    if ds == [] {
      assert PaidDispatches(ds) == {} && SpentIds(ds) == {};
    } else {
      PaidDispatchesMatchIds(ds[..|ds| - 1]);
      OneMoreDispatch(ds);
    }
  }

  lemma OneMorePaid(before: seq<Dispatch>, d: Dispatch)
    ensures PaidDispatches(before + [d]) == PaidDispatches(before) + (if d.spent.Some? then {|before|} else {})
    ensures |before| !in PaidDispatches(before)
  {
    var after := before + [d];
    forall i: nat ensures i in PaidDispatches(after) <==> i in PaidDispatches(before) || (i == |before| && d.spent.Some?) {
      assert 0 <= i < |before| ==> after[i] == before[i];
      assert after[|before|] == d && |after| == |before| + 1;
    }
  }

  lemma OneMoreSpent(before: seq<Dispatch>, d: Dispatch)
    ensures SpentIds(before + [d]) == SpentIds(before) + (if d.spent.Some? then {d.spent.value} else {})
  {
    var after := before + [d];
    forall id ensures id in SpentIds(after) <==> id in SpentIds(before) || d.spent == Some(id) {
      if id in SpentIds(before) {
        var i :| 0 <= i < |before| && before[i].spent == Some(id);
        assert after[i].spent == Some(id);
      }
      assert d.spent == Some(id) ==> after[|before|].spent == Some(id);
      if id in SpentIds(after) {
        var i :| 0 <= i < |after| && after[i].spent == Some(id);
        assert i < |before| ==> before[i].spent == Some(id);
      }
    }
  }

  lemma OneMoreDispatch(ds: seq<Dispatch>)
    requires ds != []
    requires forall i, j :: 0 <= i < j < |ds| && ds[i].spent.Some? ==> ds[i].spent != ds[j].spent
    ensures var n, one := |ds| - 1, if ds[|ds| - 1].spent.Some? then 1 else 0;
            && |PaidDispatches(ds)| == |PaidDispatches(ds[..n])| + one
            && |SpentIds(ds)| == |SpentIds(ds[..n])| + one
  {
    var n := |ds| - 1;
    var before := ds[..n];
    assert ds == before + [ds[n]];
    OneMorePaid(before, ds[n]);
    OneMoreSpent(before, ds[n]);
    assert ds[n].spent.Some? ==> ds[n].spent.value !in SpentIds(before);
  }

  lemma DisjointParts(a: set<nat>, b: set<nat>, whole: set<nat>)
    requires a !! b && a <= whole && b <= whole
    ensures |a| + |b| <= |whole|
  {
    assert whole == a + b + (whole - a - b);
  }

  /** Credentials are conserved: paid dispatches and live credentials together never exceed those issued. */
  lemma CredentialsAreConserved(env: Env, evs: seq<Event>)
    requires Honest(env) && AllProper(env, evs)
    ensures var s := Exec(env, evs); |PaidDispatches(s.dispatches)| + |s.live| <= |s.issued.Keys|
  {
    ExecKeeps(env, evs);
    var s := Exec(env, evs);
    PaidDispatchesMatchIds(s.dispatches);
    forall id | id in SpentIds(s.dispatches) ensures Spent(s, id) {
      var i :| 0 <= i < |s.dispatches| && s.dispatches[i].spent == Some(id);
      assert SentOk(env, s, s.dispatches[i]);
    }
    DisjointParts(SpentIds(s.dispatches), s.live, s.issued.Keys);
  }

  lemma ValidationSpends(env: Env, s: State, t: nat, call: Call, group: Option<Group>, evidence: Evidence)
    ensures var r := ValidateStep(env, s, t, call, group, evidence); r.issued == s.issued && r.live <= s.live
  {
  }

  lemma TasksSpend(env: Env, s: State, t: nat, ev: Event)
    requires t in s.tasks
    ensures var r := TaskStep(env, s, t, s.tasks[t], ev); r.issued == s.issued && r.live <= s.live
  {
    match (ev, s.tasks[t])
    case (Validated(_, group, evidence), Calling(call)) => ValidationSpends(env, s, t, call, group, evidence);
    case _ =>
  }

  lemma SpentStays(env: Env, s: State, ev: Event, id: nat)
    requires Inv(env, s) && Spent(s, id)
    ensures Spent(Step(env, s, ev), id)
  {
    match ev
    case Issued(c) =>
    case Expired(other) =>
    case Requested(r, readOnly, known) =>
    case ChatCalled(user, fullName, arguments, token) =>
    case _ =>
      if ev.task in s.tasks {
        TasksSpend(env, s, ev.task, ev);
      }
  }

  /** A consumed credential is never accepted again. */
  lemma {:induction false} ConsumptionIsFinal(env: Env, s: State, evs: seq<Event>, id: nat)
    requires Honest(env) && AllProper(env, evs) && Inv(env, s) && Spent(s, id)
    ensures Inv(env, ExecFrom(env, s, evs)) && Spent(ExecFrom(env, s, evs), id)
    ensures forall user :: !Found(ExecFrom(env, s, evs), user, id)
    decreases |evs|
  {
    if evs != [] {
      var n := |evs| - 1;
      assert forall ev :: ev in evs[..n] ==> ev in evs;
      ConsumptionIsFinal(env, s, evs[..n], id);
      assert Proper(env, evs[n]);
      SpentStays(env, ExecFrom(env, s, evs[..n]), evs[n], id);
      StepKeeps(env, ExecFrom(env, s, evs[..n]), evs[n]);
    }
  }

  // Whether the validation of a chat call consumes the credential that it presents.
  predicate Presents(env: Env, call: Call, group: Option<Group>) {
    PolicyFor(env, call, group).ApprovalRequired? && call.user != "" && call.context.NoContext? && call.token.Some?
  }

  /**
   * A chat call that needs an approval burns the credential it presents, whatever its target, its
   * arguments and its evidence; one that needs none leaves every credential live.
   */
  lemma PresentedCredentialsBurn(env: Env, s: State, t: nat, group: Option<Group>, evidence: Evidence)
    requires t in s.tasks && s.tasks[t].Calling? && s.tasks[t].call.token.Some?
    requires Found(s, s.tasks[t].call.user, s.tasks[t].call.token.value)
    ensures var r := Step(env, s, Validated(t, group, evidence));
            && (Spent(r, s.tasks[t].call.token.value) <==> Presents(env, s.tasks[t].call, group))
            && r.live == if Presents(env, s.tasks[t].call, group) then s.live - {s.tasks[t].call.token.value} else s.live
  {
    var call := s.tasks[t].call;
    assert Step(env, s, Validated(t, group, evidence)) == ValidateStep(env, s, t, call, group, evidence);
  }

  // The request matches the live credential that it names.
  predicate Covered(env: Env, s: State, r: Request) {
    Found(s, r.user, r.token) && Matches(env, s.issued[r.token], r.user, r.server, r.tool, r.hash)
  }

  /**
   * The execute route checks before it consumes: a mismatch ends there and leaves its credential live,
   * and only a request that matched goes on to consume.
   */
  lemma ChecksConsumeNothing(env: Env, s: State, t: nat)
    requires t in s.tasks && s.tasks[t].Checking?
    ensures var r := Step(env, s, CheckReplied(t));
            && r.live == s.live && r.issued == s.issued
            && (t in r.tasks && r.tasks[t].Consuming? <==> Covered(env, s, s.tasks[t].request))
            && (t !in r.tasks <==> !Covered(env, s, s.tasks[t].request))
  {
  }

  /**
   * From then on the credential is spent whatever becomes of the request, unless it is dropped before
   * its consumption takes effect; it starts a call only if it still matched and there was room.
   */
  lemma ConsumptionsBurn(env: Env, s: State, t: nat, room: bool)
    requires t in s.tasks && s.tasks[t].Consuming? && s.tasks[t].request.token in s.issued
    ensures var request := s.tasks[t].request;
            var r := Step(env, s, ConsumeReplied(t, room));
            && !Found(r, request.user, request.token)
            && (t in r.tasks ==> Covered(env, s, request) && room && r.tasks[t] == Calling(r.tasks[t].call))
            && (Covered(env, s, request) && room ==> t in r.tasks)
  {
    var request := s.tasks[t].request;
    FullNamesSplit(request.server, request.tool);
  }

  // ---------- Redirected calls ----------

  /**
   * A server name that ends in an underscore redirects the call; the context then refuses it, unless
   * the tool that it reaches needs no approval at all.
   */
  lemma RedirectedCallsAreRefused(env: Env, s: State, t: nat, server: string, tool: string, r: Request, arguments: Fields,
                                  group: Option<Group>, evidence: Evidence)
    requires !Contains(server + "_", SEPARATOR) && r.server == server + "_" && r.tool == tool
    requires server !in env.names && r.server !in env.names
    requires t in s.tasks && CallOf(env, r, arguments).Some? && s.tasks[t] == Calling(CallOf(env, r, arguments).value)
    requires PolicyFor(env, s.tasks[t].call, group).ApprovalRequired?
    ensures s.tasks[t].call.server == server && s.tasks[t].call.tool == "_" + tool
    ensures Step(env, s, Validated(t, group, evidence)) == End(s, t)
  {
    TrailingUnderscoreRedirects(server, tool);
    RedirectedTargetsDiffer(env, server, tool);
    OtherTargetsAreRefused(env, s, t, group, evidence);
  }

  lemma OtherTargetsAreRefused(env: Env, s: State, t: nat, group: Option<Group>, evidence: Evidence)
    requires t in s.tasks && s.tasks[t].Calling? && s.tasks[t].call.context.Consumed?
    requires s.tasks[t].call.context.target != Target(env.names, s.tasks[t].call.server, s.tasks[t].call.tool)
    requires PolicyFor(env, s.tasks[t].call, group).ApprovalRequired?
    ensures Step(env, s, Validated(t, group, evidence)) == End(s, t)
  {
    assert Step(env, s, Validated(t, group, evidence)) == ValidateStep(env, s, t, s.tasks[t].call, group, evidence);
  }

  lemma RedirectedTargetsDiffer(env: Env, server: string, tool: string)
    requires server !in env.names && server + "_" !in env.names
    ensures Target(env.names, server + "_", tool) != Target(env.names, server, "_" + tool)
  {
    assert |Target(env.names, server + "_", tool).0| == |server| + 1;
    assert |Target(env.names, server, "_" + tool).0| == |server|;
  }

  // ---------- The operator's lists, as they were written ----------

  /**
   * No run sends an exempt call of a tool that the operator's lists keep out: under a group without
   * includes, no excluded name stands for the called tool, and otherwise some included name does.
   */
  lemma ExemptDispatchesAreNamed(env: Env, evs: seq<Event>, i: nat, raw: RawGroup)
    requires Honest(env) && AllProper(env, evs) && Parse(raw).Ok?
    requires var s := Exec(env, evs);
             && i < |s.dispatches| && !s.dispatches[i].authority.ApprovedBy?
             && s.dispatches[i].authority.group == Parse(raw).value
    ensures var call := Exec(env, evs).dispatches[i].call;
            var logical := Logical(env.names, call.server);
            && (raw.includes == [] ==> forall x :: x in raw.excludes ==> !StandsFor(logical, x, call.tool))
            && (raw.includes != [] ==> exists x :: x in raw.includes && StandsFor(logical, x, call.tool))
  {
    ExemptDispatchesAreExposed(env, evs, i);
    var d := Exec(env, evs).dispatches[i];
    GroupsExposeWhatIsNamed(raw, env.names, d.call.server, d.call.tool);
  }

  /** In particular, an excluded name keeps out the tool of that name, in any case and with any space around it. */
  lemma ExcludedToolsNeedApproval(env: Env, evs: seq<Event>, i: nat, raw: RawGroup, name: string)
    requires Honest(env) && AllProper(env, evs) && Parse(raw).Ok?
    requires raw.includes == [] && name in raw.excludes
    requires var s := Exec(env, evs);
             && i < |s.dispatches| && !s.dispatches[i].authority.ApprovedBy?
             && s.dispatches[i].authority.group == Parse(raw).value
    ensures var call := Exec(env, evs).dispatches[i].call;
            SameName(name, call.tool) ==> Prefixed(Logical(env.names, call.server), call.tool)
  {
    ExemptDispatchesAreNamed(env, evs, i, raw);
  }

  // Nothing in the call mentions a mutation: not its tool, and no text under one of the five keys.
  ghost predicate Innocent(call: Call) {
    && !Mentions(call.tool)
    && forall k, v :: k in VerbKeys && GivesText(call.arguments, k, v) ==> !Mentions(v)
  }

  lemma {:induction false} TextsUnderExactly(arguments: Fields, keys: seq<string>, v: string)
    ensures v in TextsUnder(arguments, keys) <==> exists k :: k in keys && GivesText(arguments, k, v)
    decreases |keys|
  {
    if keys != [] {
      TextsUnderExactly(arguments, keys[1..], v);
      assert keys == [keys[0]] + keys[1..];
      assert GivesText(arguments, keys[0], v) ==> keys[0] in keys;
    }
  }

  lemma MutatesExactly(call: Call, evidence: Evidence)
    ensures Mutates(call, evidence) <==> evidence.destructiveHint == Some(true) || !Innocent(call)
  {
    var verbs := TextsUnder(call.arguments, VerbKeys);
    MutationsAreMentioned(call.tool, verbs, evidence.destructiveHint);
    forall v ensures v in verbs <==> exists k :: k in VerbKeys && GivesText(call.arguments, k, v) {
      TextsUnderExactly(call.arguments, VerbKeys, v);
    }
  }

  /** A call sent as a verified read mentions no mutation, and its tool is not marked destructive. */
  lemma VerifiedReadsAreInnocent(env: Env, evs: seq<Event>, i: nat)
    requires Honest(env) && AllProper(env, evs)
    requires var s := Exec(env, evs); i < |s.dispatches| && s.dispatches[i].authority.VerifiedRead?
    ensures var d := Exec(env, evs).dispatches[i];
            d.authority.evidence.destructiveHint != Some(true) && Innocent(d.call)
  {
    ExemptDispatchesAreExposed(env, evs, i);
    var d := Exec(env, evs).dispatches[i];
    MutatesExactly(d.call, d.authority.evidence);
  }

  // ---------- When a validated call is sent ----------

  // A live credential of this very user, server, tool and arguments.
  ghost predicate Approves(env: Env, s: State, id: nat, user: string, server: string, tool: string, arguments: Fields) {
    && id in s.live && id in s.issued
    && var c := s.issued[id];
       && (c.user, c.server, c.tool) == (Strip(user), Strip(server), Strip(tool))
       && DenoteFields(c.arguments) - {TOKEN_FIELD} == DenoteFields(arguments) - {TOKEN_FIELD}
  }

  ghost predicate Sendable(env: Env, s: State, call: Call, group: Option<Group>, evidence: Evidence) {
    var target := Target(env.names, call.server, call.tool);
    var policy := if group.Some? then ForTool(group.value, target.1) else ApprovalRequired;
    match policy
    case AutoApprove => true
    case ReadOnly => evidence.destructiveHint != Some(true) && Innocent(call)
    case ApprovalRequired =>
      && call.user != ""
      && (if call.context.Consumed? then
            (call.context.user, call.context.target, call.context.hash) == (call.user, target, HashOf(env, call.arguments))
          else call.token.Some? && Approves(env, s, call.token.value, call.user, call.server, call.tool, call.arguments))
  }

  lemma MatchesExactly(env: Env, s: State, id: nat, user: string, server: string, tool: string, arguments: Fields)
    requires Honest(env) && Inv(env, s) && UniqueKeysInFields(arguments)
    ensures Found(s, user, id) && Matches(env, s.issued[id], user, server, tool, HashOf(env, arguments)) <==>
            Approves(env, s, id, user, server, tool, arguments)
  {
    if id in s.issued {
      EqualHashesMeanEqualArguments(env, s.issued[id].arguments, arguments);
    }
  }

  /**
   * A validated call goes on to be sent exactly if the operator exempted its tool, or its user's
   * credential or context covers exactly this call; otherwise it ends there.
   */
  lemma ValidCallsAreSentExactly(env: Env, s: State, t: nat, group: Option<Group>, evidence: Evidence)
    requires Honest(env) && Inv(env, s) && t in s.tasks && s.tasks[t].Calling?
    ensures var r := Step(env, s, Validated(t, group, evidence));
            && (t in r.tasks <==> Sendable(env, s, s.tasks[t].call, group, evidence))
            && (t in r.tasks ==> r.tasks[t].Sending? && r.tasks[t].dispatch.call == s.tasks[t].call)
  {
    var call := s.tasks[t].call;
    assert PcOk(env, s, s.tasks[t]);
    assert Step(env, s, Validated(t, group, evidence)) == ValidateStep(env, s, t, call, group, evidence);
    MutatesExactly(call, evidence);
    if call.token.Some? {
      MatchesExactly(env, s, call.token.value, call.user, call.server, call.tool, call.arguments);
    }
  }

  // ---------- An approved call reaches its tool ----------

  // The task's call was sent as the last dispatch.
  ghost predicate SentNow(s: State, r: State, call: Call, spent: Option<nat>) {
    && |r.dispatches| == |s.dispatches| + 1 && r.dispatches[..|s.dispatches|] == s.dispatches
    && r.dispatches[|s.dispatches|].call == call && r.dispatches[|s.dispatches|].spent == spent
  }

  lemma SendingSends(env: Env, s: State, t: nat)
    requires t in s.tasks && s.tasks[t].Sending?
    ensures SentNow(s, Step(env, s, Sent(t)), s.tasks[t].dispatch.call, s.tasks[t].dispatch.spent)
    ensures Step(env, s, Sent(t)).live == s.live && Step(env, s, Sent(t)).issued == s.issued
  {
  }

  lemma ApprovedChatCallsValidate(env: Env, s: State, t: nat, group: Option<Group>, evidence: Evidence)
    requires Honest(env) && Inv(env, s) && t in s.tasks && s.tasks[t].Calling?
    requires var call := s.tasks[t].call;
             && call.context.NoContext? && call.user != "" && call.token.Some?
             && (group.Some? ==> ForTool(group.value, Target(env.names, call.server, call.tool).1).ApprovalRequired?)
             && Approves(env, s, call.token.value, call.user, call.server, call.tool, call.arguments)
    ensures var call := s.tasks[t].call;
            Step(env, s, Validated(t, group, evidence)) ==
            Move(Consume(s, call.user, call.token.value), t,
                 Sending(Dispatch(call, ApprovedBy(call.token.value), call.token)))
  {
    var call := s.tasks[t].call;
    assert PcOk(env, s, s.tasks[t]);
    MatchesExactly(env, s, call.token.value, call.user, call.server, call.tool, call.arguments);
    assert Step(env, s, Validated(t, group, evidence)) == ValidateStep(env, s, t, call, group, evidence);
  }

  lemma DirectCallsValidate(env: Env, s: State, t: nat, group: Option<Group>, evidence: Evidence)
    requires t in s.tasks && s.tasks[t].Calling?
    requires var call := s.tasks[t].call;
             && call.context.Consumed? && call.user != ""
             && (group.Some? ==> !ForTool(group.value, Target(env.names, call.server, call.tool).1).ReadOnly?)
             && (call.context.user, call.context.target, call.context.hash) ==
                (call.user, Target(env.names, call.server, call.tool), HashOf(env, call.arguments))
    ensures var r := Step(env, s, Validated(t, group, evidence));
            && t in r.tasks && r.tasks[t].Sending? && r.tasks[t].dispatch.call == s.tasks[t].call
            && r.tasks[t].dispatch.spent == Some(s.tasks[t].call.context.id) && r.dispatches == s.dispatches
  {
    assert Step(env, s, Validated(t, group, evidence)) == ValidateStep(env, s, t, s.tasks[t].call, group, evidence);
  }

  /**
   * A live credential pays for the chat call that it was issued for: presented with the full name of
   * its server and tool, it is spent and the call is sent.
   */
  lemma ApprovedChatCallsAreSent(env: Env, s: State, user: string, server: string, tool: string, arguments: Fields, id: nat,
                                 group: Option<Group>, evidence: Evidence)
    requires Honest(env) && Inv(env, s) && UniqueKeysInFields(arguments) && user != ""
    requires !Contains(server + "_", SEPARATOR)
    requires group.Some? ==> ForTool(group.value, Target(env.names, server, tool).1).ApprovalRequired?
    requires Approves(env, s, id, user, server, tool, arguments)
    ensures var t := s.next;
            var s1 := Step(env, s, ChatCalled(user, FullName(server, tool), arguments, Some(id)));
            var r := Step(env, Step(env, s1, Validated(t, group, evidence)), Sent(t));
            SentNow(s, r, Call(user, server, tool, arguments, NoContext, Some(id)), Some(id)) && Spent(r, id)
  {
    var t, call := s.next, Call(user, server, tool, arguments, NoContext, Some(id));
    FullNamesSplit(server, tool);
    var s1 := Step(env, s, ChatCalled(user, FullName(server, tool), arguments, Some(id)));
    assert s1 == Begin(s, Calling(call));
    StepKeeps(env, s, ChatCalled(user, FullName(server, tool), arguments, Some(id)));
    ApprovedChatCallsValidate(env, s1, t, group, evidence);
    SendingSends(env, Step(env, s1, Validated(t, group, evidence)), t);
  }

  // A request for exactly what a credential approves, with its text and that text's hash.
  ghost predicate Wellformed(env: Env, r: Request, arguments: Fields) {
    && env.loads(r.text) == Some(Obj(arguments)) && UniqueKeysInFields(arguments) && env.sha(r.text) == r.hash
    && r.hash == HashOf(env, arguments)
    && !Contains(r.server + "_", SEPARATOR) && r.tool != "connect" && r.user != ""
  }

  lemma GuardsFollow(server: string)
    requires !Contains(server + "_", SEPARATOR)
    ensures !Contains(server, SEPARATOR)
  {
    if i :| 0 <= i <= |server| && OccursAt(server, SEPARATOR, i) {
      assert (server + "_")[i..i + 2] == server[i..i + 2];
      assert OccursAt(server + "_", SEPARATOR, i);
    }
  }

  // What the request of the execute route leaves behind at each await.
  lemma RequestsAdvance(env: Env, s: State, r: Request, arguments: Fields)
    requires Honest(env) && Inv(env, s) && Wellformed(env, r, arguments)
    requires Approves(env, s, r.token, r.user, r.server, r.tool, arguments)
    ensures Step(env, s, Requested(r, false, true)) == Begin(s, Checking(r, arguments))
    ensures Step(env, Begin(s, Checking(r, arguments)), CheckReplied(s.next)) == Begin(s, Consuming(r, arguments))
    ensures var context := Consumed(r.token, r.user, Target(env.names, r.server, r.tool), HashOf(env, arguments));
            var call := Call(r.user, r.server, r.tool, arguments, context, None);
            Step(env, Begin(s, Consuming(r, arguments)), ConsumeReplied(s.next, true)) ==
            Begin(s.(live := s.live - {r.token}), Calling(call))
  {
    GuardsFollow(r.server);
    MatchesExactly(env, s, r.token, r.user, r.server, r.tool, arguments);
    CheckAdvances(env, s, r, arguments);
    ConsumptionAdvances(env, s, r, arguments);
  }

  lemma CheckAdvances(env: Env, s: State, r: Request, arguments: Fields)
    requires Found(s, r.user, r.token) && Matches(env, s.issued[r.token], r.user, r.server, r.tool, r.hash)
    ensures Step(env, Begin(s, Checking(r, arguments)), CheckReplied(s.next)) == Begin(s, Consuming(r, arguments))
  {
    var t := s.next;
    assert s.tasks[t := Checking(r, arguments)][t := Consuming(r, arguments)] == s.tasks[t := Consuming(r, arguments)];
  }

  lemma ConsumptionAdvances(env: Env, s: State, r: Request, arguments: Fields)
    requires Found(s, r.user, r.token) && Matches(env, s.issued[r.token], r.user, r.server, r.tool, r.hash)
    requires !Contains(r.server + "_", SEPARATOR)
    ensures var context := Consumed(r.token, r.user, Target(env.names, r.server, r.tool), HashOf(env, arguments));
            var call := Call(r.user, r.server, r.tool, arguments, context, None);
            Step(env, Begin(s, Consuming(r, arguments)), ConsumeReplied(s.next, true)) ==
            Begin(s.(live := s.live - {r.token}), Calling(call))
  {
    DirectCallsAreTheirOwn(env, r, arguments);
    ConsumptionStarts(env, s, r, arguments, CallOf(env, r, arguments).value);
  }

  lemma DirectCallsAreTheirOwn(env: Env, r: Request, arguments: Fields)
    requires !Contains(r.server + "_", SEPARATOR)
    ensures var context := Consumed(r.token, r.user, Target(env.names, r.server, r.tool), HashOf(env, arguments));
            CallOf(env, r, arguments) == Some(Call(r.user, r.server, r.tool, arguments, context, None))
  {
    DirectCallsKeepTheirNames(env, r, arguments);
  }

  lemma ConsumptionStarts(env: Env, s: State, r: Request, arguments: Fields, call: Call)
    requires Found(s, r.user, r.token) && Matches(env, s.issued[r.token], r.user, r.server, r.tool, r.hash)
    requires CallOf(env, r, arguments) == Some(call)
    ensures Step(env, Begin(s, Consuming(r, arguments)), ConsumeReplied(s.next, true)) ==
            Begin(s.(live := s.live - {r.token}), Calling(call))
  {
    var t := s.next;
    assert s.tasks[t := Consuming(r, arguments)][t := Calling(call)] == s.tasks[t := Calling(call)];
  }

  /**
   * A live credential pays for its direct execution: requested, checked, consumed, validated and sent,
   * the call reaches the server and the tool of the request.
   */
  lemma ApprovedRequestsAreSent(env: Env, s: State, r: Request, arguments: Fields, group: Option<Group>, evidence: Evidence)
    requires Honest(env) && Inv(env, s) && Wellformed(env, r, arguments)
    requires Approves(env, s, r.token, r.user, r.server, r.tool, arguments)
    requires group.Some? ==> !ForTool(group.value, Target(env.names, r.server, r.tool).1).ReadOnly?
    ensures var t := s.next;
            var s1 := Step(env, s, Requested(r, false, true));
            var s3 := Step(env, Step(env, s1, CheckReplied(t)), ConsumeReplied(t, true));
            var s5 := Step(env, Step(env, s3, Validated(t, group, evidence)), Sent(t));
            && Spent(s3, r.token)
            && exists context :: SentNow(s, s5, Call(r.user, r.server, r.tool, arguments, context, None), Some(r.token))
  {
    RequestsAdvance(env, s, r, arguments);
    var t := s.next;
    var context := Consumed(r.token, r.user, Target(env.names, r.server, r.tool), HashOf(env, arguments));
    var call := Call(r.user, r.server, r.tool, arguments, context, None);
    var s3 := Begin(s.(live := s.live - {r.token}), Calling(call));
    DirectCallsValidate(env, s3, t, group, evidence);
    SendingSends(env, Step(env, s3, Validated(t, group, evidence)), t);
    var s5 := Step(env, Step(env, s3, Validated(t, group, evidence)), Sent(t));
    assert SentNow(s, s5, call, Some(r.token));
  }

  // ---------- Where direct executions come from ----------

  // A request for an operation that is neither read-only nor unknown, with a text of these arguments.
  ghost predicate WasRequested(env: Env, evs: seq<Event>, r: Request, arguments: Fields) {
    && Requested(r, false, true) in evs
    && env.loads(r.text) == Some(Obj(arguments)) && env.sha(r.text) == r.hash
    && !Contains(r.server, SEPARATOR) && r.tool != "connect"
  }

  ghost predicate CameFromARequest(env: Env, evs: seq<Event>, call: Call) {
    call.context.Consumed? ==>
      exists r :: && WasRequested(env, evs, r, call.arguments)
                  && (r.token, r.user) == (call.context.id, call.context.user) && r.user == call.user
  }

  ghost predicate TaskCame(env: Env, evs: seq<Event>, pc: Pc) {
    match pc
    case Checking(r, arguments) => WasRequested(env, evs, r, arguments)
    case Consuming(r, arguments) => WasRequested(env, evs, r, arguments)
    case Calling(call) => CameFromARequest(env, evs, call)
    case Sending(d) => CameFromARequest(env, evs, d.call)
  }

  ghost predicate Came(env: Env, evs: seq<Event>, s: State) {
    && (forall t :: t in s.tasks ==> TaskCame(env, evs, s.tasks[t]))
    && forall i :: 0 <= i < |s.dispatches| ==> CameFromARequest(env, evs, s.dispatches[i].call)
  }

  lemma TaskCameLater(env: Env, evs: seq<Event>, ev: Event, pc: Pc)
    requires TaskCame(env, evs, pc)
    ensures TaskCame(env, evs + [ev], pc)
  {
  }

  lemma ComesLater(env: Env, evs: seq<Event>, ev: Event, s: State)
    requires Came(env, evs, s)
    ensures Came(env, evs + [ev], s)
  {
    forall t | t in s.tasks ensures TaskCame(env, evs + [ev], s.tasks[t]) {
      TaskCameLater(env, evs, ev, s.tasks[t]);
    }
  }

  lemma StepComes(env: Env, evs: seq<Event>, s: State, ev: Event)
    requires Came(env, evs, s)
    ensures Came(env, evs + [ev], Step(env, s, ev))
  {
    ComesLater(env, evs, ev, s);
    match ev
    case Issued(c) =>
    case Expired(id) =>
    case Requested(r, readOnly, known) => assert ev in evs + [ev];
    case ChatCalled(user, fullName, arguments, token) =>
    case _ =>
      if ev.task in s.tasks {
        TaskComes(env, evs + [ev], s, ev.task, ev);
      }
  }

  lemma TaskComes(env: Env, evs: seq<Event>, s: State, t: nat, ev: Event)
    requires Came(env, evs, s) && t in s.tasks
    ensures Came(env, evs, TaskStep(env, s, t, s.tasks[t], ev))
  {
    assert TaskCame(env, evs, s.tasks[t]);
    match (ev, s.tasks[t])
    case (CheckReplied(_), Checking(r, arguments)) =>
    case (ConsumeReplied(_, room), Consuming(r, arguments)) => ConsumedCome(env, evs, s, t, room);
    case (Validated(_, group, evidence), Calling(call)) => ValidatedCome(env, evs, s, t, group, evidence);
    case _ =>
  }

  lemma ConsumedCome(env: Env, evs: seq<Event>, s: State, t: nat, room: bool)
    requires Came(env, evs, s) && t in s.tasks && s.tasks[t].Consuming?
    ensures Came(env, evs, ConsumeStep(env, s, t, s.tasks[t].request, s.tasks[t].arguments, room))
  {
    var r, arguments := s.tasks[t].request, s.tasks[t].arguments;
    assert TaskCame(env, evs, s.tasks[t]);
    var call := CallOf(env, r, arguments);
    if call.Some? {
      assert CameFromARequest(env, evs, call.value);
    }
  }

  lemma ValidatedCome(env: Env, evs: seq<Event>, s: State, t: nat, group: Option<Group>, evidence: Evidence)
    requires Came(env, evs, s) && t in s.tasks && s.tasks[t].Calling?
    ensures Came(env, evs, ValidateStep(env, s, t, s.tasks[t].call, group, evidence))
  {
    assert TaskCame(env, evs, s.tasks[t]);
  }

  lemma {:induction false} RunsCome(env: Env, evs: seq<Event>)
    ensures Came(env, evs, Exec(env, evs))
    decreases |evs|
  {
    if evs != [] {
      var n := |evs| - 1;
      RunsCome(env, evs[..n]);
      StepComes(env, evs[..n], Exec(env, evs[..n]), evs[n]);
      assert evs == evs[..n] + [evs[n]];
    }
  }

  /**
   * Every direct execution was requested: by the same user, with the same credential, through a text
   * of its arguments with the stated hash, for a known server's operation that is not read-only.
   */
  lemma DirectDispatchesWereRequested(env: Env, evs: seq<Event>, i: nat)
    requires i < |Exec(env, evs).dispatches| && Exec(env, evs).dispatches[i].call.context.Consumed?
    ensures var call := Exec(env, evs).dispatches[i].call;
            exists r :: && Requested(r, false, true) in evs
                        && (r.token, r.user) == (call.context.id, call.user)
                        && env.loads(r.text) == Some(Obj(call.arguments)) && env.sha(r.text) == r.hash
                        && !Contains(r.server, SEPARATOR) && r.tool != "connect"
  {
    RunsCome(env, evs);
    var call := Exec(env, evs).dispatches[i].call;
    var r :| WasRequested(env, evs, r, call.arguments) && r.token == call.context.id && r.user == call.user;
  }

  /** A request that is dropped while its consumption is under way spends its credential exactly if that took effect. */
  lemma DroppedConsumptionsBurn(env: Env, s: State, t: nat, applied: bool)
    requires t in s.tasks && s.tasks[t].Consuming? && Found(s, s.tasks[t].request.user, s.tasks[t].request.token)
    ensures var r := Step(env, s, Dropped(t, applied));
            t !in r.tasks && (Found(r, s.tasks[t].request.user, s.tasks[t].request.token) <==> !applied)
  {
  }

  // ---------- Executions ----------

  datatype Status = Running | OAuthRequired | Completed | Failed | Cancelled

  predicate Terminal(s: Status) { s.Completed? || s.Failed? || s.Cancelled? }

  datatype Record = Record(user: string, status: Status, created: int)

  // What `start` keeps: records of running tasks, and finished ones for an hour.
  predicate Kept(r: Record, now: int) { !Terminal(r.status) || now - r.created < 3600 }

  function Swept(records: map<nat, Record>, now: int): map<nat, Record> {
    map k | k in records && Kept(records[k], now) :: records[k]
  }

  datatype Outcome = Confirmed | Unconfirmed | Interrupted

  class Executions {
    var records: map<nat, Record>
    var next: nat

    ghost predicate Valid() reads this {
      |records| <= 1024 && forall k :: k in records ==> k < next
    }

    constructor ()
      ensures Valid() && records == map[]
    {
      records, next := map[], 0;
    }

    // Starts the only task of a new record; running records are never evicted.
    method Start(user: string, now: int) returns (id: Option<nat>)
      requires Valid()
      modifies this
      ensures Valid()
      ensures forall k :: k in old(records) && !Terminal(old(records)[k].status) ==> k in records && records[k] == old(records)[k]
      ensures id.None? <==> |Swept(old(records), now)| >= 1024
      ensures forall k :: k in old(records) && now - old(records)[k].created < 3600 ==> k in records && records[k] == old(records)[k]
      ensures forall k :: k in old(records) && Terminal(old(records)[k].status) && now - old(records)[k].created >= 3600 ==>
                k !in records
      ensures id.None? ==> records == Swept(old(records), now) && next == old(next)
      ensures id.Some? ==> id.value !in old(records) && records == Swept(old(records), now)[id.value := Record(user, Running, now)]
    {
      records := Swept(records, now);
      SweptIsSmaller(old(records), now);
      if |records| >= 1024 {
        return None;
      }
      id := Some(next);
      records := records[next := Record(user, Running, now)];
      next := next + 1;
    }

    // A browser authorization is asked for while the call is in progress.
    method AskForAuthorization(id: nat)
      requires Valid() && id in records && !Terminal(records[id].status)
      modifies this`records
      ensures Valid() && records == old(records)[id := old(records)[id].(status := OAuthRequired)]
    {
      records := records[id := records[id].(status := OAuthRequired)];
      assert records.Keys == old(records).Keys;
      assert |records| == |records.Keys| && |old(records)| == |old(records).Keys|;
    }

    // A record concludes once, with the outcome of its one call.
    method Conclude(id: nat, outcome: Outcome)
      requires Valid() && id in records && !Terminal(records[id].status)
      modifies this`records
      ensures Valid() && records.Keys == old(records).Keys && Terminal(records[id].status)
      ensures forall k :: k in records && k != id ==> records[k] == old(records)[k]
      ensures records[id] == old(records)[id].(status := records[id].status)
      ensures records[id].status.Completed? <==> outcome.Confirmed?
      ensures records[id].status.Cancelled? <==> outcome.Interrupted?
    {
      var status := match outcome case Confirmed => Completed case Unconfirmed => Failed case Interrupted => Cancelled;
      records := records[id := records[id].(status := status)];
      assert records.Keys == old(records).Keys;
      assert |records| == |records.Keys| && |old(records)| == |old(records).Keys|;
    }
  }

  lemma SweptIsSmaller(records: map<nat, Record>, now: int)
    ensures |Swept(records, now)| <= |records|
  {
    var kept := Swept(records, now).Keys;
    assert kept <= records.Keys;
    assert records.Keys == kept + (records.Keys - kept);
    assert |records| == |records.Keys| && |Swept(records, now)| == |kept|;
  }
}
