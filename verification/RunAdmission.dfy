/**
 * Admission of runs: a prepare request checks, waits, and then installs a context, while a release
 * of the same run may arrive in between and must win.
 *
 * `released` is a dictionary in insertion order; the code between two awaits is one step.
 */
module RunAdmission {
  datatype Context = Context(user: string, created: int)

  datatype Tombstone = Tombstone(run: string, user: string, until: int)

  datatype Prepare = Prepare(run: string, user: string)

  datatype State = State(
    runs: map<string, Context>,
    released: seq<Tombstone>,
    pending: map<nat, Prepare>,      // prepares between their first check and their installation
    next: nat,
    now: int)

  function Initial(now: int): State { State(map[], [], map[], 0, now) }

  datatype Event =
    | Tick(seconds: nat)
    | PrepareBegins(run: string, user: string)
    | PrepareFails(task: nat)
    | PrepareFinishes(task: nat)
    | ReleaseCalled(run: string, user: string)

  const MAX_RUNS := 128
  const MAX_TOMBSTONES := 256
  const TOMBSTONE_SECONDS := 180
  const RUN_SECONDS := 7200

  // ---------- Tombstones ----------

  predicate Names(t: Tombstone, run: string, user: string) { t.run == run && t.user == user }

  predicate Buried(released: seq<Tombstone>, run: string, user: string) {
    exists i :: 0 <= i < |released| && Names(released[i], run, user)
  }

  function Pruned(released: seq<Tombstone>, now: int): seq<Tombstone> {
    if released == [] then []
    else (if released[0].until > now then [released[0]] else []) + Pruned(released[1..], now)
  }

  // Assignment to a key: in place when the key is present, at the end otherwise.
  function Assign(released: seq<Tombstone>, run: string, user: string, until: int): seq<Tombstone> {
    if released == [] then [Tombstone(run, user, until)]
    else if Names(released[0], run, user) then [Tombstone(run, user, until)] + released[1..]
    else [released[0]] + Assign(released[1..], run, user, until)
  }

  function Bury(released: seq<Tombstone>, run: string, user: string, now: int): seq<Tombstone> {
    var room := if |released| >= MAX_TOMBSTONES then released[1..] else released;
    Assign(room, run, user, now + TOMBSTONE_SECONDS)
  }

  // ---------- Steps ----------

  function Live(runs: map<string, Context>, now: int): map<string, Context> {
    map k | k in runs && now - runs[k].created < RUN_SECONDS :: runs[k]
  }

  function BeginStep(s: State, run: string, user: string): State {
    var r := s.(released := Pruned(s.released, s.now));
    if run == "" then s
    else if Buried(r.released, run, user) then r
    else r.(pending := r.pending[r.next := Prepare(run, user)], next := r.next + 1)
  }

  function FinishStep(s: State, t: nat, p: Prepare): State {
    var r := s.(runs := Live(s.runs, s.now), pending := s.pending - {t});
    if |r.runs| >= MAX_RUNS || p.run in r.runs || Buried(r.released, p.run, p.user) then r
    else r.(runs := r.runs[p.run := Context(p.user, s.now)])
  }

  function ReleaseStep(s: State, run: string, user: string): State {
    if run in s.runs then
      if s.runs[run].user == user then s.(runs := s.runs - {run}) else s
    else s.(released := Bury(s.released, run, user, s.now))
  }

  function Step(s: State, ev: Event): State {
    match ev
    case Tick(seconds) => s.(now := s.now + seconds)
    case PrepareBegins(run, user) => BeginStep(s, run, user)
    case PrepareFails(t) => s.(pending := s.pending - {t})
    case PrepareFinishes(t) => if t in s.pending then FinishStep(s, t, s.pending[t]) else s
    case ReleaseCalled(run, user) => ReleaseStep(s, run, user)
  }

  function Exec(s: State, evs: seq<Event>): State
    decreases |evs|
  {
    if evs == [] then s else Step(Exec(s, evs[..|evs| - 1]), evs[|evs| - 1])
  }

  // ---------- Limits ----------

  ghost predicate OneEach(released: seq<Tombstone>) {
    forall i, j :: 0 <= i < j < |released| ==> !Names(released[j], released[i].run, released[i].user)
  }

  ghost predicate Inv(s: State) {
    && |s.runs| <= MAX_RUNS && |s.released| <= MAX_TOMBSTONES && OneEach(s.released)
    && forall t :: t in s.pending ==> t < s.next
  }

  lemma {:induction false} PrunedMembers(released: seq<Tombstone>, now: int)
    ensures |Pruned(released, now)| <= |released|
    ensures forall t :: t in Pruned(released, now) <==> t in released && t.until > now
    decreases |released|
  {
    if released != [] {
      PrunedMembers(released[1..], now);
      assert released == [released[0]] + released[1..];
    }
  }

  lemma {:induction false} PrunedIsOneEach(released: seq<Tombstone>, now: int)
    requires OneEach(released)
    ensures OneEach(Pruned(released, now))
    decreases |released|
  {
    if released != [] {
      PrunedIsOneEach(released[1..], now);
      PrunedMembers(released[1..], now);
      var rest := Pruned(released[1..], now);
      forall j | 0 <= j < |rest| ensures !Names(rest[j], released[0].run, released[0].user) {
        assert rest[j] in released[1..];
        var k :| 0 <= k < |released[1..]| && released[1..][k] == rest[j];
        assert released[k + 1] == rest[j];
      }
    }
  }

  // Every other tombstone keeps its place; a new one comes last.
  ghost predicate Assigned(released: seq<Tombstone>, after: seq<Tombstone>, t: Tombstone) {
    && |after| == |released| + (if Buried(released, t.run, t.user) then 0 else 1)
    && (forall i :: 0 <= i < |released| ==> after[i] == if Names(released[i], t.run, t.user) then t else released[i])
    && (!Buried(released, t.run, t.user) ==> after[|released|] == t)
  }

  lemma AssignedBehind(head: Tombstone, rest: seq<Tombstone>, after: seq<Tombstone>, t: Tombstone)
    requires !Names(head, t.run, t.user) && Assigned(rest, after, t)
    ensures Assigned([head] + rest, [head] + after, t)
  {
    BuriedInTail([head] + rest, t.run, t.user);
    assert ([head] + rest)[1..] == rest;
    forall i | 0 < i < |[head] + rest| ensures ([head] + after)[i] == after[i - 1] && ([head] + rest)[i] == rest[i - 1] {
    }
  }

  lemma {:induction false} AssignMeans(released: seq<Tombstone>, run: string, user: string, until: int)
    requires OneEach(released)
    ensures Assigned(released, Assign(released, run, user, until), Tombstone(run, user, until))
    decreases |released|
  {
    if released != [] && !Names(released[0], run, user) {
      AssignMeans(released[1..], run, user, until);
      assert released == [released[0]] + released[1..];
      AssignedBehind(released[0], released[1..], Assign(released[1..], run, user, until), Tombstone(run, user, until));
    }
  }

  lemma AssignKeeps(released: seq<Tombstone>, run: string, user: string, until: int)
    requires OneEach(released)
    ensures Assigned(released, Assign(released, run, user, until), Tombstone(run, user, until))
    ensures OneEach(Assign(released, run, user, until))
  {
    AssignMeans(released, run, user, until);
    var after := Assign(released, run, user, until);
    forall i, j | 0 <= i < j < |after| ensures !Names(after[j], after[i].run, after[i].user) {
      assert i < |released| && (j < |released| ==> !Names(released[j], released[i].run, released[i].user));
    }
  }

  lemma BuriedInTail(released: seq<Tombstone>, run: string, user: string)
    requires released != []
    ensures Buried(released, run, user) <==> Names(released[0], run, user) || Buried(released[1..], run, user)
  {
    if Buried(released[1..], run, user) {
      var i :| 0 <= i < |released[1..]| && Names(released[1..][i], run, user);
      assert Names(released[i + 1], run, user);
    }
    if Buried(released, run, user) && !Names(released[0], run, user) {
      var i :| 0 <= i < |released| && Names(released[i], run, user);
      assert Names(released[1..][i - 1], run, user);
    }
  }

  lemma BuryKeeps(released: seq<Tombstone>, run: string, user: string, now: int)
    requires OneEach(released) && |released| <= MAX_TOMBSTONES
    ensures OneEach(Bury(released, run, user, now)) && |Bury(released, run, user, now)| <= MAX_TOMBSTONES
  {
    var room := if |released| >= MAX_TOMBSTONES then released[1..] else released;
    AssignKeeps(room, run, user, now + TOMBSTONE_SECONDS);
  }

  lemma LiveIsSmaller(runs: map<string, Context>, now: int)
    ensures |Live(runs, now)| <= |runs|
  {
    var live := Live(runs, now).Keys;
    assert runs.Keys == live + (runs.Keys - live);
    assert |runs| == |runs.Keys| && |Live(runs, now)| == |live|;
  }

  lemma BeginKeeps(s: State, run: string, user: string)
    requires Inv(s)
    ensures Inv(BeginStep(s, run, user))
  {
    PrunedMembers(s.released, s.now);
    PrunedIsOneEach(s.released, s.now);
  }

  lemma ReleaseKeeps(s: State, run: string, user: string)
    requires Inv(s)
    ensures Inv(ReleaseStep(s, run, user))
  {
    if run in s.runs {
      assert (s.runs - {run}).Keys == s.runs.Keys - {run};
      assert |s.runs - {run}| == |(s.runs - {run}).Keys| && |s.runs| == |s.runs.Keys|;
    } else {
      BuryKeeps(s.released, run, user, s.now);
    }
  }

  lemma StepKeeps(s: State, ev: Event)
    requires Inv(s)
    ensures Inv(Step(s, ev))
  {
    match ev
    case PrepareBegins(run, user) => BeginKeeps(s, run, user);
    case PrepareFinishes(_) => LiveIsSmaller(s.runs, s.now);
    case ReleaseCalled(run, user) => ReleaseKeeps(s, run, user);
    case _ =>
  }

  /** At every moment there are at most 128 runs and 256 tombstones, one for each run and user. */
  lemma {:induction false} LimitsHold(now: int, evs: seq<Event>)
    ensures Inv(Exec(Initial(now), evs))
    decreases |evs|
  {
    if evs != [] {
      LimitsHold(now, evs[..|evs| - 1]);
      StepKeeps(Exec(Initial(now), evs[..|evs| - 1]), evs[|evs| - 1]);
    }
  }

  // ---------- A release before the installation wins ----------

  function Place(released: seq<Tombstone>, run: string, user: string): (i: nat)
    requires Buried(released, run, user)
    ensures i < |released| && Names(released[i], run, user)
    decreases |released|
  {
    if Names(released[0], run, user) then 0
    else
      BuriedInTail(released, run, user);
      1 + Place(released[1..], run, user)
  }

  // How many more tombstones a tombstone is sure to outlive.
  function Slack(released: seq<Tombstone>, run: string, user: string): int
    requires Buried(released, run, user)
  {
    MAX_TOMBSTONES - |released| + Place(released, run, user)
  }

  // The tombstone is there, expires late enough and survives as many burials.
  ghost predicate Guarded(s: State, run: string, user: string, until: int, burials: int) {
    && Inv(s)
    && Buried(s.released, run, user)
    && s.released[Place(s.released, run, user)].until >= until
    && Slack(s.released, run, user) >= burials
    && (run in s.runs ==> s.runs[run].user != user)
  }

  function Burials(evs: seq<Event>): nat {
    if evs == [] then 0 else Burials(evs[..|evs| - 1]) + if evs[|evs| - 1].ReleaseCalled? then 1 else 0
  }

  lemma OnePlace(released: seq<Tombstone>, run: string, user: string, i: nat)
    requires OneEach(released) && i < |released| && Names(released[i], run, user)
    ensures Buried(released, run, user) && Place(released, run, user) == i
  {
    var p := Place(released, run, user);
  }

  lemma {:induction false} PrunedSlack(released: seq<Tombstone>, now: int, run: string, user: string)
    requires OneEach(released) && Buried(released, run, user) && released[Place(released, run, user)].until > now
    ensures Buried(Pruned(released, now), run, user)
    ensures Slack(Pruned(released, now), run, user) >= Slack(released, run, user)
    ensures Pruned(released, now)[Place(Pruned(released, now), run, user)] == released[Place(released, run, user)]
    decreases |released|
  {
    var rest := Pruned(released[1..], now);
    if Names(released[0], run, user) {
      assert Pruned(released, now)[0] == released[0];
      PrunedMembers(released[1..], now);
    } else {
      BuriedInTail(released, run, user);
      PrunedSlack(released[1..], now, run, user);
      if released[0].until > now {
        assert Pruned(released, now) == [released[0]] + rest;
        assert Pruned(released, now)[1..] == rest;
        BuriedInTail(Pruned(released, now), run, user);
      } else {
        assert Pruned(released, now) == rest;
      }
    }
  }

  lemma BurySlack(released: seq<Tombstone>, run: string, user: string, other: string, owner: string, now: int)
    requires OneEach(released) && |released| <= MAX_TOMBSTONES && Buried(released, run, user)
    requires Slack(released, run, user) >= 1
    ensures var after := Bury(released, other, owner, now);
            && Buried(after, run, user)
            && Slack(after, run, user) >= Slack(released, run, user) - 1
            && after[Place(after, run, user)].until >=
                 if (other, owner) == (run, user) then now + TOMBSTONE_SECONDS else released[Place(released, run, user)].until
  {
    var full := |released| >= MAX_TOMBSTONES;
    var room := if full then released[1..] else released;
    var p := Place(released, run, user);
    var q := if full then p - 1 else p;
    assert room[q] == released[p];
    OnePlace(room, run, user, q);
    AssignKeeps(room, other, owner, now + TOMBSTONE_SECONDS);
    OnePlace(Bury(released, other, owner, now), run, user, q);
  }

  lemma GuardedPrune(s: State, run: string, user: string, until: int, burials: int, other: string, owner: string)
    requires Guarded(s, run, user, until, burials) && s.now < until
    ensures Guarded(BeginStep(s, other, owner), run, user, until, burials)
  {
    BeginKeeps(s, other, owner);
    if other != "" {
      PrunedSlack(s.released, s.now, run, user);
    }
  }

  lemma GuardedBurial(s: State, run: string, user: string, until: int, burials: int, other: string, owner: string)
    requires Guarded(s, run, user, until, burials) && until <= s.now + TOMBSTONE_SECONDS && burials >= 1
    ensures Guarded(ReleaseStep(s, other, owner), run, user, until, burials - 1)
  {
    ReleaseKeeps(s, other, owner);
    if other !in s.runs {
      BurySlack(s.released, run, user, other, owner, s.now);
    }
  }

  lemma GuardedStep(s: State, ev: Event, run: string, user: string, until: int, burials: int)
    requires Guarded(s, run, user, until, burials) && until <= s.now + TOMBSTONE_SECONDS
    requires Step(s, ev).now < until && (ev.ReleaseCalled? ==> burials >= 1)
    ensures Guarded(Step(s, ev), run, user, until, if ev.ReleaseCalled? then burials - 1 else burials)
  {
    match ev
    case PrepareBegins(other, owner) => GuardedPrune(s, run, user, until, burials, other, owner);
    case ReleaseCalled(other, owner) => GuardedBurial(s, run, user, until, burials, other, owner);
    case PrepareFinishes(t) =>
      if t in s.pending {
        GuardedFinish(s, run, user, until, burials, t);
      }
    case Tick(_) =>
    case PrepareFails(_) =>
  }

  lemma GuardedFinish(s: State, run: string, user: string, until: int, burials: int, t: nat)
    requires Guarded(s, run, user, until, burials) && t in s.pending
    ensures Guarded(FinishStep(s, t, s.pending[t]), run, user, until, burials)
  {
    LiveIsSmaller(s.runs, s.now);
  }

  // How many later releases the tombstone of a release outlives.  A renewed tombstone keeps its
  // place, unless the table is full and it stands at the front, where it makes room for itself.
  function Grace(released: seq<Tombstone>, run: string, user: string): int {
    if Buried(released, run, user) && Slack(released, run, user) >= 1 then Slack(released, run, user) else MAX_TOMBSTONES - 1
  }

  lemma NewTombstone(released: seq<Tombstone>, run: string, user: string, now: int)
    requires OneEach(released) && |released| <= MAX_TOMBSTONES
    requires !Buried(if |released| >= MAX_TOMBSTONES then released[1..] else released, run, user)
    ensures var after := Bury(released, run, user, now);
            && Buried(after, run, user) && Slack(after, run, user) == MAX_TOMBSTONES - 1
            && after[Place(after, run, user)].until == now + TOMBSTONE_SECONDS
  {
    var room := if |released| >= MAX_TOMBSTONES then released[1..] else released;
    AssignKeeps(room, run, user, now + TOMBSTONE_SECONDS);
    OnePlace(Bury(released, run, user, now), run, user, |room|);
  }

  lemma RenewedTombstone(released: seq<Tombstone>, run: string, user: string, now: int)
    requires OneEach(released) && |released| <= MAX_TOMBSTONES && Buried(released, run, user)
    requires Slack(released, run, user) >= 1
    ensures var after := Bury(released, run, user, now);
            && Buried(after, run, user) && Slack(after, run, user) == Slack(released, run, user)
            && after[Place(after, run, user)].until == now + TOMBSTONE_SECONDS
  {
    var full := |released| >= MAX_TOMBSTONES;
    var room := if full then released[1..] else released;
    var q := Place(released, run, user) - if full then 1 else 0;
    assert room[q] == released[Place(released, run, user)];
    OnePlace(room, run, user, q);
    AssignKeeps(room, run, user, now + TOMBSTONE_SECONDS);
    OnePlace(Bury(released, run, user, now), run, user, q);
  }

  // At the front of a full table the old tombstone is dropped first.
  lemma FrontIsDropped(released: seq<Tombstone>, run: string, user: string)
    requires OneEach(released) && |released| <= MAX_TOMBSTONES
    requires Buried(released, run, user) ==> Slack(released, run, user) < 1
    ensures !Buried(if |released| >= MAX_TOMBSTONES then released[1..] else released, run, user)
  {
    if |released| >= MAX_TOMBSTONES {
      var room := released[1..];
      forall i | 0 <= i < |room| ensures !Names(room[i], run, user) {
        assert room[i] == released[i + 1];
        if Buried(released, run, user) {
          assert Place(released, run, user) == 0;
        } else {
          assert !Names(released[i + 1], run, user);
        }
      }
    }
  }

  /** A release that finds no context leaves a tombstone that outlives exactly so many later ones. */
  lemma ReleaseLeavesGrace(s: State, run: string, user: string)
    requires Inv(s) && run !in s.runs
    ensures var r := Step(s, ReleaseCalled(run, user));
            && Guarded(r, run, user, s.now + TOMBSTONE_SECONDS, Grace(s.released, run, user))
            && Slack(r.released, run, user) == Grace(s.released, run, user)
  {
    StepKeeps(s, ReleaseCalled(run, user));
    if Buried(s.released, run, user) && Slack(s.released, run, user) >= 1 {
      RenewedTombstone(s.released, run, user, s.now);
    } else {
      FrontIsDropped(s.released, run, user);
      NewTombstone(s.released, run, user, s.now);
    }
  }

  lemma {:induction false} TimeNeverFalls(s: State, evs: seq<Event>, n: nat)
    requires n <= |evs|
    ensures s.now <= Exec(s, evs[..n]).now <= Exec(s, evs).now
    decreases |evs|
  {
    if n < |evs| {
      var k := |evs| - 1;
      assert evs[..k][..n] == evs[..n];
      TimeNeverFalls(s, evs[..k], n);
      TimeNeverFalls(s, evs[..k], 0);
    } else {
      assert evs[..n] == evs;
      if evs != [] {
        TimeNeverFalls(s, evs[..|evs| - 1], |evs| - 1);
        assert evs[..|evs| - 1][..|evs| - 1] == evs[..|evs| - 1];
      }
    }
  }

  lemma {:induction false} GuardedLasts(s: State, evs: seq<Event>, run: string, user: string, until: int, burials: int)
    requires Guarded(s, run, user, until, burials) && until <= s.now + TOMBSTONE_SECONDS
    requires Exec(s, evs).now < until && Burials(evs) <= burials
    ensures Guarded(Exec(s, evs), run, user, until, burials - Burials(evs))
    decreases |evs|
  {
    if evs != [] {
      var n := |evs| - 1;
      TimeNeverFalls(s, evs, n);
      GuardedLasts(s, evs[..n], run, user, until, burials);
      TimeNeverFalls(s, evs[..n], 0);
      GuardedStep(Exec(s, evs[..n]), evs[n], run, user, until, burials - Burials(evs[..n]));
    }
  }

  // Runs of events after a release: within the life of its tombstone, with so many releases.
  ghost predicate Within(r: State, evs: seq<Event>, until: int, n: int) {
    Burials(evs) <= n && Exec(r, evs).now < until
  }

  ghost predicate Installed(s: State, run: string, user: string) { run in s.runs && s.runs[run].user == user }

  /**
   * A release that finds no live context of its run keeps every prepare of that run and user,
   * waiting or still to come, from installing one: for 180 seconds and as many releases as its
   * tombstone outlives.
   */
  lemma ReleasedRunsStayGone(s: State, run: string, user: string, evs: seq<Event>)
    requires Inv(s) && run !in s.runs
    requires Within(Step(s, ReleaseCalled(run, user)), evs, s.now + TOMBSTONE_SECONDS, Grace(s.released, run, user))
    ensures var end := Exec(Step(s, ReleaseCalled(run, user)), evs);
            !Installed(end, run, user) && Buried(end.released, run, user)
  {
    ReleaseLeavesGrace(s, run, user);
    GuardedLasts(Step(s, ReleaseCalled(run, user)), evs, run, user, s.now + TOMBSTONE_SECONDS, Grace(s.released, run, user));
  }

  /**
   * A repeated release renews the deadline, and the tombstone outlives as many later releases as its
   * old place allowed; at the front of a full table it is replaced and outlives 255.
   */
  lemma RepeatedReleasesStayGone(s: State, run: string, user: string, evs: seq<Event>)
    requires Inv(s) && run !in s.runs && Buried(s.released, run, user)
    requires var slack := Slack(s.released, run, user);
             Within(Step(s, ReleaseCalled(run, user)), evs, s.now + TOMBSTONE_SECONDS, if slack == 0 then MAX_TOMBSTONES - 1 else slack)
    ensures !Installed(Exec(Step(s, ReleaseCalled(run, user)), evs), run, user)
  {
    ReleasedRunsStayGone(s, run, user, evs);
  }

  // ---------- One release more ----------

  ghost function LongestName(names: set<string>): nat {
    if names == {} then 0
    else
      var x :| x in names;
      var rest := LongestName(names - {x});
      if |x| > rest then |x| else rest
  }

  lemma {:induction false} NoLongerName(names: set<string>, name: string)
    requires name in names
    ensures |name| <= LongestName(names)
    decreases names
  {
    var x :| x in names && LongestName(names) == (if |x| > LongestName(names - {x}) then |x| else LongestName(names - {x}));
    if x != name {
      NoLongerName(names - {x}, name);
    }
  }

  // A run that is neither live nor released.
  lemma FreshRun(s: State, run: string) returns (name: string)
    ensures name !in s.runs && name != run && forall user :: !Buried(s.released, name, user)
  {
    var names := s.runs.Keys + {run} + set t | t in s.released :: t.run;
    name := seq(LongestName(names) + 1, i => 'x');
    if name in names {
      NoLongerName(names, name);
    }
  }

  // What the burial of a fresh name does to the table.
  lemma FreshBurial(released: seq<Tombstone>, name: string, user: string, now: int)
    requires !Buried(released, name, user)
    ensures Bury(released, name, user, now) ==
            (if |released| >= MAX_TOMBSTONES then released[1..] else released) + [Tombstone(name, user, now + TOMBSTONE_SECONDS)]
  {
    var full := |released| >= MAX_TOMBSTONES;
    var room := if full then released[1..] else released;
    if full {
      BuriedInTail(released, name, user);
    }
    AppendedLast(room, name, user, now + TOMBSTONE_SECONDS);
  }

  lemma FreshBurialShifts(released: seq<Tombstone>, run: string, user: string, name: string, now: int)
    requires OneEach(released) && |released| <= MAX_TOMBSTONES && Buried(released, run, user) && !Buried(released, name, user)
    requires OneEach(Bury(released, name, user, now)) && Slack(released, run, user) >= 1
    ensures var after := Bury(released, name, user, now);
            Buried(after, run, user) && Slack(after, run, user) == Slack(released, run, user) - 1
  {
    FreshBurial(released, name, user, now);
    var p := Place(released, run, user);
    var q := if |released| >= MAX_TOMBSTONES then p - 1 else p;
    var after := Bury(released, name, user, now);
    assert after[q] == released[p];
    OnePlace(after, run, user, q);
  }

  lemma FreshBurialEvicts(released: seq<Tombstone>, run: string, user: string, name: string, now: int)
    requires OneEach(released) && |released| <= MAX_TOMBSTONES && !Buried(released, name, user) && name != run
    requires Buried(released, run, user) && Slack(released, run, user) < 1
    ensures !Buried(Bury(released, name, user, now), run, user)
  {
    FreshBurial(released, name, user, now);
    FrontIsDropped(released, run, user);
    LastIsOther(if |released| >= MAX_TOMBSTONES then released[1..] else released,
                Tombstone(name, user, now + TOMBSTONE_SECONDS), run, user);
  }

  // The release of a fresh run takes one from the slack, and from none it evicts.
  lemma FreshReleaseCosts(s: State, run: string, user: string, name: string)
    requires Inv(s) && Buried(s.released, run, user) && name !in s.runs && name != run && !Buried(s.released, name, user)
    ensures var r := Step(s, ReleaseCalled(name, user));
            && Inv(r) && r.runs == s.runs && r.now == s.now
            && (Slack(s.released, run, user) >= 1 ==>
                  Buried(r.released, run, user) && Slack(r.released, run, user) == Slack(s.released, run, user) - 1)
            && (Slack(s.released, run, user) < 1 ==> !Buried(r.released, run, user))
  {
    StepKeeps(s, ReleaseCalled(name, user));
    if Slack(s.released, run, user) >= 1 {
      FreshBurialShifts(s.released, run, user, name, s.now);
    } else {
      FreshBurialEvicts(s.released, run, user, name, s.now);
    }
  }

  lemma LastIsOther(room: seq<Tombstone>, t: Tombstone, run: string, user: string)
    requires !Buried(room, run, user) && t.run != run
    ensures !Buried(room + [t], run, user)
  {
    forall i | 0 <= i < |room + [t]| ensures !Names((room + [t])[i], run, user) {
      assert i < |room| ==> !Names(room[i], run, user);
    }
  }

  lemma {:induction false} SlackIsUsedUp(s: State, run: string, user: string, k: nat) returns (evs: seq<Event>)
    requires Inv(s) && Buried(s.released, run, user) && k <= Slack(s.released, run, user)
    ensures Burials(evs) == k
    ensures var r := Exec(s, evs);
            && Inv(r) && r.runs == s.runs && r.now == s.now
            && Buried(r.released, run, user) && Slack(r.released, run, user) == Slack(s.released, run, user) - k
  {
    if k == 0 {
      evs := [];
    } else {
      var before := SlackIsUsedUp(s, run, user, k - 1);
      var r := Exec(s, before);
      var name := FreshRun(r, run);
      evs := before + [ReleaseCalled(name, user)];
      assert evs[..|evs| - 1] == before;
      FreshReleaseCosts(r, run, user, name);
    }
  }

  /** One release more than its slack evicts a tombstone, however recent it is. */
  lemma {:induction false} TombstonesFall(s: State, run: string, user: string) returns (evs: seq<Event>)
    requires Inv(s) && Buried(s.released, run, user) && Slack(s.released, run, user) >= 0
    ensures Burials(evs) == Slack(s.released, run, user) + 1
    ensures var r := Exec(s, evs);
            Inv(r) && r.runs == s.runs && r.now == s.now && !Buried(r.released, run, user)
  {
    var before := SlackIsUsedUp(s, run, user, Slack(s.released, run, user));
    var r := Exec(s, before);
    var name := FreshRun(r, run);
    evs := before + [ReleaseCalled(name, user)];
    assert evs[..|evs| - 1] == before;
    FreshReleaseCosts(r, run, user, name);
  }

  // Without a tombstone a new prepare installs the run.
  lemma UnburiedRunsInstall(s: State, run: string, user: string) returns (evs: seq<Event>)
    requires Inv(s) && run != "" && run !in s.runs && |s.runs| < MAX_RUNS && !Buried(s.released, run, user)
    ensures Burials(evs) == 0 && evs == [PrepareBegins(run, user), PrepareFinishes(s.next)]
    ensures Installed(Exec(s, evs), run, user) && Exec(s, evs).now == s.now
  {
    var first, last := PrepareBegins(run, user), PrepareFinishes(s.next);
    evs := [first, last];
    TwoEvents(s, first, last);
    PrunedStaysUnburied(s.released, s.now, run, user);
    LiveIsSmaller(s.runs, s.now);
    var r := Step(s, first);
    assert Step(r, last) == FinishStep(r, s.next, Prepare(run, user));
  }

  lemma TwoEvents(s: State, a: Event, b: Event)
    ensures Exec(s, [a, b]) == Step(Step(s, a), b)
    ensures !a.ReleaseCalled? && !b.ReleaseCalled? ==> Burials([a, b]) == 0
  {
    assert [a, b][..1] == [a] && [a][..0] == [];
    assert Exec(s, [a]) == Step(Exec(s, []), a);
    assert Burials([a]) == Burials([]) + if a.ReleaseCalled? then 1 else 0;
  }

  lemma PrunedStaysUnburied(released: seq<Tombstone>, now: int, run: string, user: string)
    requires !Buried(released, run, user)
    ensures !Buried(Pruned(released, now), run, user)
  {
    PrunedMembers(released, now);
    var after := Pruned(released, now);
    forall i | 0 <= i < |after| ensures !Names(after[i], run, user) {
      assert after[i] in released;
    }
  }

  lemma {:induction false} ExecInParts(s: State, a: seq<Event>, b: seq<Event>)
    ensures Exec(s, a + b) == Exec(Exec(s, a), b)
    ensures Burials(a + b) == Burials(a) + Burials(b)
    decreases |b|
  {
    if b == [] {
      assert a + b == a;
    } else {
      var n := |b| - 1;
      assert (a + b)[..|a| + n] == a + b[..n];
      ExecInParts(s, a, b[..n]);
    }
  }

  /**
   * The tombstone of a release survives every run of at most `n` releases within 180 seconds if and
   * only if `n` is at most its grace.
   */
  lemma TombstonesLastExactly(s: State, run: string, user: string, n: int)
    requires Inv(s) && run !in s.runs
    ensures var r := Step(s, ReleaseCalled(run, user));
            (forall evs :: Within(r, evs, s.now + TOMBSTONE_SECONDS, n) ==> Buried(Exec(r, evs).released, run, user))
            <==> n <= Grace(s.released, run, user)
  {
    var r := Step(s, ReleaseCalled(run, user));
    ReleaseLeavesGrace(s, run, user);
    if n <= Grace(s.released, run, user) {
      forall evs | Within(r, evs, s.now + TOMBSTONE_SECONDS, n) ensures Buried(Exec(r, evs).released, run, user) {
        ReleasedRunsStayGone(s, run, user, evs);
      }
    } else {
      var evs := TombstonesFall(r, run, user);
      assert Within(r, evs, s.now + TOMBSTONE_SECONDS, n);
    }
  }

  /**
   * With room for one more run, a release keeps its run from being installed through every run of at
   * most `n` later releases within 180 seconds if and only if `n` is at most the tombstone's grace.
   */
  lemma ReleasesProtectExactly(s: State, run: string, user: string, n: int)
    requires Inv(s) && run !in s.runs && run != "" && |s.runs| < MAX_RUNS
    ensures var r := Step(s, ReleaseCalled(run, user));
            (forall evs :: Within(r, evs, s.now + TOMBSTONE_SECONDS, n) ==> !Installed(Exec(r, evs), run, user))
            <==> n <= Grace(s.released, run, user)
  {
    var r := Step(s, ReleaseCalled(run, user));
    ReleaseLeavesGrace(s, run, user);
    if n <= Grace(s.released, run, user) {
      forall evs | Within(r, evs, s.now + TOMBSTONE_SECONDS, n) ensures !Installed(Exec(r, evs), run, user) {
        ReleasedRunsStayGone(s, run, user, evs);
      }
    } else {
      var first := TombstonesFall(r, run, user);
      var second := UnburiedRunsInstall(Exec(r, first), run, user);
      ExecInParts(r, first, second);
      assert Within(r, first + second, s.now + TOMBSTONE_SECONDS, n);
    }
  }

  // ---------- A release that finds a live context ----------

  // The prepare waits on, and nobody releases its run again.
  ghost predicate WaitsOn(evs: seq<Event>, t: nat, p: Prepare) {
    PrepareFails(t) !in evs && PrepareFinishes(t) !in evs && ReleaseCalled(p.run, p.user) !in evs
  }

  lemma OthersStayUnburied(released: seq<Tombstone>, run: string, user: string, other: string, owner: string, now: int)
    requires OneEach(released) && |released| <= MAX_TOMBSTONES
    requires !Buried(released, run, user) && (other, owner) != (run, user)
    ensures !Buried(Bury(released, other, owner, now), run, user)
  {
    var room := if |released| >= MAX_TOMBSTONES then released[1..] else released;
    var until := now + TOMBSTONE_SECONDS;
    AssignKeeps(room, other, owner, until);
    var after := Bury(released, other, owner, now);
    forall i | 0 <= i < |after| ensures !Names(after[i], run, user) {
      if i < |room| {
        assert room[i] == if |released| >= MAX_TOMBSTONES then released[i + 1] else released[i];
        assert !Names(room[i], run, user);
      }
    }
  }

  lemma WaitingStep(s: State, ev: Event, t: nat, p: Prepare)
    requires Inv(s) && t in s.pending && s.pending[t] == p && WaitsOn([ev], t, p)
    ensures t in Step(s, ev).pending && Step(s, ev).pending[t] == p
    ensures !Buried(s.released, p.run, p.user) ==> !Buried(Step(s, ev).released, p.run, p.user)
  {
    assert ev in [ev];
    if !Buried(s.released, p.run, p.user) {
      match ev
      case PrepareBegins(_, _) => PrunedStaysUnburied(s.released, s.now, p.run, p.user);
      case ReleaseCalled(other, owner) =>
        OthersStayUnburied(s.released, p.run, p.user, other, owner, s.now);
      case _ =>
    }
  }

  lemma {:induction false} WaitingRun(s: State, evs: seq<Event>, t: nat, p: Prepare)
    requires Inv(s) && t in s.pending && s.pending[t] == p && WaitsOn(evs, t, p)
    ensures var e := Exec(s, evs);
            && Inv(e) && t in e.pending && e.pending[t] == p
            && (!Buried(s.released, p.run, p.user) ==> !Buried(e.released, p.run, p.user))
    decreases |evs|
  {
    if evs != [] {
      var n := |evs| - 1;
      WaitingRun(s, evs[..n], t, p);
      assert evs[n] in evs;
      WaitingStep(Exec(s, evs[..n]), evs[n], t, p);
      StepKeeps(Exec(s, evs[..n]), evs[n]);
    }
  }

  ghost predicate Installs(s: State, t: nat) {
    Step(s, PrepareFinishes(t)).runs != Live(s.runs, s.now)
  }

  /**
   * A release that finds the context of another prepare of the same run removes it without a
   * tombstone.  A second prepare that waits on, however long and whatever else happens, then installs
   * the run exactly when capacity allows it, the run is not live and no older tombstone stands; and
   * unless one stood at the release, none will.
   */
  lemma ReleaseOfALiveRunLeavesTheDoorOpen(s: State, t: nat, evs: seq<Event>)
    requires Inv(s) && t in s.pending && WaitsOn(evs, t, s.pending[t])
    requires Installed(s, s.pending[t].run, s.pending[t].user)
    ensures var p := s.pending[t];
            var r := Step(s, ReleaseCalled(p.run, p.user));
            var e := Exec(r, evs);
            && p.run !in r.runs && r.released == s.released
            && (Installs(e, t) <==>
                  |Live(e.runs, e.now)| < MAX_RUNS && p.run !in Live(e.runs, e.now) && !Buried(e.released, p.run, p.user))
            && (!Buried(s.released, p.run, p.user) ==> !Buried(e.released, p.run, p.user))
  {
    var p := s.pending[t];
    var r := Step(s, ReleaseCalled(p.run, p.user));
    StepKeeps(s, ReleaseCalled(p.run, p.user));
    WaitingRun(r, evs, t, p);
  }

  lemma {:induction false} AppendedLast(released: seq<Tombstone>, run: string, user: string, until: int)
    requires !Buried(released, run, user)
    ensures Assign(released, run, user, until) == released + [Tombstone(run, user, until)]
    decreases |released|
  {
    if released != [] {
      BuriedInTail(released, run, user);
      AppendedLast(released[1..], run, user, until);
    }
  }

  // ---------- Which runs come and go ----------

  // A run counts for two hours.
  predicate Young(s: State, run: string) { run in s.runs && s.now - s.runs[run].created < 7200 }

  // The prepare that finishes has room for its run, which is not live, and nobody released it.
  ghost predicate Installable(s: State, ev: Event, run: string) {
    && ev.PrepareFinishes? && ev.task in s.pending && s.pending[ev.task].run == run
    && |Live(s.runs, s.now)| < 128 && !Young(s, run)
    && forall i :: 0 <= i < |s.released| ==> s.released[i].run != run || s.released[i].user != s.pending[ev.task].user
  }

  /**
   * A run comes only with a prepare that may install it.  It goes only with a release by its own
   * user, or when a prepare finishes once it is two hours old; a younger one survives other prepares.
   */
  lemma RunsChangeExactly(s: State, ev: Event, run: string)
    ensures var r := Step(s, ev);
            var ages := ev.PrepareFinishes? && ev.task in s.pending && !Young(s, run);
            && (run in r.runs <==>
                || Installable(s, ev, run)
                || (run in s.runs && !ages && ev != ReleaseCalled(run, s.runs[run].user)))
            && (run in r.runs ==>
                  r.runs[run] == if Installable(s, ev, run) then Context(s.pending[ev.task].user, s.now) else s.runs[run])
  {
    if ev.PrepareFinishes? && ev.task in s.pending {
      var p := s.pending[ev.task];
      assert Buried(s.released, p.run, p.user) <==>
             exists i :: 0 <= i < |s.released| && s.released[i].run == p.run && s.released[i].user == p.user by {
        if i :| 0 <= i < |s.released| && s.released[i].run == p.run && s.released[i].user == p.user {
          assert Names(s.released[i], p.run, p.user);
        }
      }
    }
  }

  /** What counts against the capacity are the runs younger than two hours. */
  lemma OnlyYoungRunsCount(s: State)
    ensures Live(s.runs, s.now).Keys == set run | run in s.runs && Young(s, run)
  {
  }

  /** Until it is two hours old, a run survives everything but a release by its own user. */
  lemma {:induction false} RunsLast(s: State, evs: seq<Event>, run: string)
    requires run in s.runs && ReleaseCalled(run, s.runs[run].user) !in evs
    requires Exec(s, evs).now - s.runs[run].created < 7200
    ensures run in Exec(s, evs).runs && Exec(s, evs).runs[run] == s.runs[run]
    decreases |evs|
  {
    if evs != [] {
      var n := |evs| - 1;
      var before := Exec(s, evs[..n]);
      assert evs[n] in evs && Exec(s, evs) == Step(before, evs[n]);
      assert before.now <= Exec(s, evs).now;
      assert forall ev :: ev in evs[..n] ==> ev in evs;
      RunsLast(s, evs[..n], run);
      RunsChangeExactly(before, evs[n], run);
    }
  }

  /** A prepare of a named run begins to wait exactly if no unexpired release of it by its user is known. */
  lemma PreparesBeginExactly(s: State, run: string, user: string)
    requires Inv(s)
    ensures var r := Step(s, PrepareBegins(run, user));
            && (s.next in r.pending <==>
                run != "" && forall t :: t in s.released && t.run == run && t.user == user ==> t.until <= s.now)
            && (s.next in r.pending ==> r.pending[s.next] == Prepare(run, user))
            && r.runs == s.runs
            && (run != "" ==> forall t :: t in r.released <==> t in s.released && t.until > s.now)
  {
    PrunedMembers(s.released, s.now);
    var pruned := Pruned(s.released, s.now);
    if t :| t in s.released && t.run == run && t.user == user && t.until > s.now {
      var i :| 0 <= i < |pruned| && pruned[i] == t;
      assert Names(pruned[i], run, user);
    }
    if i :| 0 <= i < |pruned| && Names(pruned[i], run, user) {
      assert pruned[i] in pruned;
    }
  }

  lemma AssignedIsNew(released: seq<Tombstone>, after: seq<Tombstone>, t: Tombstone, i: nat)
    requires Assigned(released, after, t) && i < |after| && Names(after[i], t.run, t.user)
    ensures after[i] == t
  {
  }

  /** A release that finds no context leaves one tombstone of its run and user, for three minutes. */
  lemma ReleasesBury(s: State, run: string, user: string)
    requires Inv(s) && run !in s.runs
    ensures var r := Step(s, ReleaseCalled(run, user));
            && Tombstone(run, user, s.now + 180) in r.released && r.runs == s.runs && r.pending == s.pending
            && forall t :: t in r.released && t.run == run && t.user == user ==> t.until == s.now + 180
  {
    ReleaseLeavesGrace(s, run, user);
    var r := Step(s, ReleaseCalled(run, user));
    var p := Place(r.released, run, user);
    var room := if |s.released| >= MAX_TOMBSTONES then s.released[1..] else s.released;
    AssignKeeps(room, run, user, s.now + TOMBSTONE_SECONDS);
    var t := Tombstone(run, user, s.now + 180);
    forall i | 0 <= i < |r.released| && Names(r.released[i], run, user) ensures r.released[i] == t {
      AssignedIsNew(room, r.released, t, i);
    }
    assert r.released[p] == t;
  }

  // ---------- The steps in place ----------

  class ToolService {
    var runs: map<string, Context>
    var released: seq<Tombstone>

    constructor ()
      ensures runs == map[] && released == []
    {
      runs, released := map[], [];
    }

    // The first part of a prepare: what it checks before it waits.
    method Check(run: string, user: string, now: int) returns (admitted: bool)
      modifies this`released
      ensures run == "" ==> !admitted && released == old(released)
      ensures run != "" ==> released == Pruned(old(released), now)
      ensures run != "" ==> (admitted <==> !Buried(released, run, user))
    {
      if run == "" {
        return false;
      }
      released := Pruned(released, now);
      admitted := !Buried(released, run, user);
    }

    // The last part of a prepare.
    method Install(run: string, user: string, now: int) returns (installed: bool)
      modifies this`runs
      ensures installed <==> |Live(old(runs), now)| < MAX_RUNS && run !in Live(old(runs), now) && !Buried(released, run, user)
      ensures runs == if installed then Live(old(runs), now)[run := Context(user, now)] else Live(old(runs), now)
    {
      runs := Live(runs, now);
      if |runs| >= MAX_RUNS || run in runs || Buried(released, run, user) {
        return false;
      }
      runs := runs[run := Context(user, now)];
      installed := true;
    }

    method Release(run: string, user: string, now: int) returns (known: bool)
      requires OneEach(released) && |released| <= MAX_TOMBSTONES
      modifies this
      ensures OneEach(released) && |released| <= MAX_TOMBSTONES
      ensures !known <==> run in old(runs) && old(runs)[run].user != user
      ensures !known ==> runs == old(runs) && released == old(released)
      ensures known && run in old(runs) ==> runs == old(runs) - {run} && released == old(released)
      ensures run !in old(runs) ==> runs == old(runs) && Buried(released, run, user) && released == Bury(old(released), run, user, now)
    {
      if run in runs && runs[run].user != user {
        return false;
      }
      if run in runs {
        runs := runs - {run};
      } else {
        BuryKeeps(released, run, user, now);
        BuriedIsBuried(if |released| >= MAX_TOMBSTONES then released[1..] else released, run, user, now + TOMBSTONE_SECONDS);
        released := Bury(released, run, user, now);
      }
      known := true;
    }
  }

  lemma BuriedIsBuried(released: seq<Tombstone>, run: string, user: string, until: int)
    requires OneEach(released)
    ensures Buried(Assign(released, run, user, until), run, user)
  {
    AssignMeans(released, run, user, until);
    var after := Assign(released, run, user, until);
    if Buried(released, run, user) {
      assert Names(after[Place(released, run, user)], run, user);
    } else {
      assert Names(after[|released|], run, user);
    }
  }
}
