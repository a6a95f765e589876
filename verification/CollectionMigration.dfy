/**
 * The crash-resumable migration of one user's collection.
 *
 * A command copies the rows of a legacy collection to a hashed one, verifies the copy and marks it
 * in an append-only log.  Every call to the client or the log may raise or kill the command, before
 * or after its effect took place, and commands may be rerun in any order and any number of times.
 */
module CollectionMigration {
  import opened Wrappers
  import opened Texts

  // ---------- Collections ----------

  // A row is a dictionary; collections hold rows by their primary key.
  type Row = map<string, string>
  type Rows = map<string, Row>

  // A schema stands for its fingerprint; `text` is what it says beside the two fields used here.
  datatype Schema = Schema(primary: string, autoId: bool, text: string)

  // `policy` is the property that allows given values for automatic identifiers: "true" or "false".
  datatype Collection = Collection(rows: Rows, schema: Schema, index: string, policy: string)

  type Collections = map<string, Collection>

  datatype Snapshot = Snapshot(count: nat, schema: Schema, index: string, ready: bool, policy: string)

  function SnapshotOf(c: Collection, ready: bool): Snapshot {
    Snapshot(|c.rows|, c.schema, c.index, ready, c.policy)
  }

  ghost predicate Submap(a: Rows, b: Rows) {
    forall k :: k in a ==> k in b && a[k] == b[k]
  }

  // Each row carries the primary key under which it is stored.
  predicate Keyed(c: Collection) {
    forall k :: k in c.rows ==> c.schema.primary in c.rows[k] && c.rows[k][c.schema.primary] == k
  }

  ghost predicate SameBut(a: Collections, b: Collections, name: string) {
    && (name in a ==> name in b)
    && forall n :: n != name ==> (n in a <==> n in b) && (n in a ==> b[n] == a[n])
  }

  // ---------- Events ----------

  datatype Lane = Lane(subject: string, legacy: string, current: string)

  datatype Strategy = InsertMissing | Upsert | Unrecorded

  datatype Marker = Marker(count: nat, schema: Schema, index: string, policy: string)

  datatype Event =
    | Started(id: string, lane: Lane, inventory: string, source: Marker, targetPolicy: string, strategy: Strategy)
    | Failed(id: string, lane: Lane, inventory: string, targetPolicy: string)
    | Verified(id: string, lane: Lane, inventory: string, source: Marker, target: Marker, strategy: Strategy)
    | RolledBack(id: string, lane: Lane, inventory: string, source: Marker, target: Marker)

  function MarkerOf(s: Snapshot): Marker { Marker(s.count, s.schema, s.index, s.policy) }

  predicate MatchesMarker(s: Snapshot, m: Marker, allowGrowth: bool) {
    && (if allowGrowth then s.count >= m.count else s.count == m.count)
    && s.schema == m.schema && s.index == m.index && s.policy == m.policy && s.ready
  }

  function Project(log: seq<Event>, lane: Lane): seq<Event> {
    if log == [] then []
    else
      var last := log[|log| - 1];
      Project(log[..|log| - 1], lane) + if last.lane == lane then [last] else []
  }

  function Policy(e: Event): string {
    match e
    case Started(_, _, _, _, policy, _) => policy
    case Failed(_, _, _, policy) => policy
    case Verified(_, _, _, _, target, _) => target.policy
    case RolledBack(_, _, _, _, target) => target.policy
  }

  predicate Attempt(e: Event) { e.Started? || e.Failed? }

  predicate Follows(a: Event, b: Event) {
    if Attempt(a) then Attempt(b) || b.Verified? else a.Verified? && b.RolledBack?
  }

  // Records of one migration share its identifier, the recorded policy and the recorded source.
  predicate Agrees(first: Event, e: Event) {
    && first.Started?
    && e.id == first.id
    && Policy(e) == first.targetPolicy
    && (!e.Failed? ==> e.source == first.source)
  }

  ghost predicate History(es: seq<Event>) {
    && (forall i :: 0 <= i < |es| ==> Agrees(es[0], es[i]))
    && forall i :: 0 < i < |es| ==> Follows(es[i - 1], es[i])
  }

  predicate Extends(es: seq<Event>, e: Event) {
    if es == [] then e.Started? else Follows(es[|es| - 1], e) && Agrees(es[0], e)
  }

  predicate Active(es: seq<Event>) { es != [] && Attempt(es[|es| - 1]) }

  predicate Settled(es: seq<Event>) { es != [] && !Attempt(es[|es| - 1]) }

  // The last start with this identifier.
  function LastStart(es: seq<Event>, id: string): (r: Option<Event>)
    ensures r.Some? ==> r.value in es && r.value.Started? && r.value.id == id
  {
    if es == [] then None
    else if es[|es| - 1].Started? && es[|es| - 1].id == id then Some(es[|es| - 1])
    else LastStart(es[..|es| - 1], id)
  }

  function LastVerified(es: seq<Event>): (r: Option<Event>)
    ensures r.Some? ==> r.value in es && r.value.Verified?
  {
    if es == [] then None
    else if es[|es| - 1].Verified? then Some(es[|es| - 1])
    else LastVerified(es[..|es| - 1])
  }

  lemma {:induction false} ProjectExtends(log: seq<Event>, e: Event, lane: Lane)
    ensures Project(log + [e], lane) == Project(log, lane) + if e.lane == lane then [e] else []
  {
    assert (log + [e])[..|log|] == log;
  }

  lemma {:induction false} ProjectMembers(log: seq<Event>, lane: Lane)
    ensures forall e :: e in Project(log, lane) <==> e in log && e.lane == lane
    decreases |log|
  {
    if log != [] {
      var n := |log| - 1;
      ProjectMembers(log[..n], lane);
      assert log == log[..n] + [log[n]];
    }
  }

  lemma HistoryExtends(es: seq<Event>, e: Event)
    requires History(es) && Extends(es, e)
    ensures History(es + [e])
  {
  }

  lemma {:induction false} SomeStart(es: seq<Event>, n: nat)
    requires History(es) && 0 < n <= |es|
    ensures LastStart(es[..n], es[0].id).Some?
  {
    if !es[n - 1].Started? {
      assert es[..n][..n - 1] == es[..n - 1];
      SomeStart(es, n - 1);
    }
  }

  // A nonempty history is a start, then starts and failures, then perhaps one verified record,
  // then perhaps one rolled-back record.
  ghost predicate Shape(es: seq<Event>, n: nat) {
    && 1 <= n <= |es| <= n + 2
    && es[0].Started?
    && (forall i :: 0 <= i < n ==> Attempt(es[i]))
    && (|es| > n ==> es[n].Verified?)
    && (|es| > n + 1 ==> es[n + 1].RolledBack?)
  }

  lemma {:induction false} ShapeOf(es: seq<Event>) returns (n: nat)
    requires History(es) && es != []
    ensures Shape(es, n)
    decreases |es|
  {
    var k := |es| - 1;
    if k == 0 {
      n := 1;
    } else {
      n := ShapeOf(es[..k]);
      assert Follows(es[k - 1], es[k]) && es[..k][k - 1] == es[k - 1];
      if Attempt(es[k]) {
        n := k + 1;
      }
    }
  }

  /** Histories are the sequences of that shape whose records agree with the first start. */
  lemma HistoryMeansShape(es: seq<Event>)
    requires es != []
    ensures History(es) <==> (exists n :: Shape(es, n)) && forall i :: 0 <= i < |es| ==> Agrees(es[0], es[i])
  {
    if History(es) {
      var n := ShapeOf(es);
    }
  }

  // ---------- What holds of a lane ----------

  // Rows of the target come from the source unless an older program wrote them with upserts that
  // replace automatic identifiers.
  predicate Trusted(es: seq<Event>, autoId: bool) {
    es != [] && (!autoId || (LastStart(es, es[|es| - 1].id).Some? && LastStart(es, es[|es| - 1].id).value.strategy == InsertMissing))
  }

  // With honest clients, what a started migration keeps true of its target.
  ghost predicate TargetKept(lane: Lane, es: seq<Event>, cs: Collections)
    requires es != [] && es[0].Started? && lane.legacy in cs && lane.current in cs
  {
    var source, target := cs[lane.legacy], cs[lane.current];
    && target.schema == source.schema && target.index == source.index
    && (!source.schema.autoId ==> target.policy == es[0].targetPolicy)
    && (Trusted(es, source.schema.autoId) ==> Submap(target.rows, source.rows))
  }

  ghost predicate Intact(faithful: bool, lane: Lane, es: seq<Event>, cs: Collections) {
    && History(es)
    && (lane.legacy in cs ==> Keyed(cs[lane.legacy]))
    && (Active(es) ==>
          && lane.legacy in cs
          && MarkerOf(SnapshotOf(cs[lane.legacy], true)) == es[0].source
          && (lane.current !in cs ==> es[0].targetPolicy == cs[lane.legacy].policy)
          && (faithful && lane.current in cs ==> TargetKept(lane, es, cs)))
  }

  // What a verified record certifies at the instant it is written.
  ghost predicate Certifies(e: Event, cs: Collections) {
    && e.Verified? && e.lane.legacy in cs && e.lane.current in cs
    && var source, target := cs[e.lane.legacy], cs[e.lane.current];
       && target.rows == source.rows
       && target.schema == source.schema && target.index == source.index
       && target.policy == e.target.policy
       && e.source.count == |source.rows| && e.target.count == |target.rows|
  }

  // ---------- Finite maps ----------

  lemma SameSizeSameSet<T>(a: set<T>, b: set<T>)
    requires a <= b && |a| == |b|
    ensures a == b
  {
    assert b == a + (b - a);
  }

  lemma SameSizeSameRows(a: Rows, b: Rows)
    requires Submap(a, b) && |a| == |b|
    ensures a == b
  {
    SameSizeSameSet(a.Keys, b.Keys);
  }

  // ---------- Batches ----------

  // `{entity[primary]: entity for entity in entities}`.
  function ByKey(entities: seq<Row>, primary: string): (r: Rows)
    requires forall e :: e in entities ==> primary in e
    ensures forall k :: k in r ==> r[k] in entities && r[k][primary] == k
    ensures forall e :: e in entities ==> e[primary] in r
  {
    if entities == [] then map[]
    else
      var last := entities[|entities| - 1];
      ByKey(entities[..|entities| - 1], primary)[last[primary] := last]
  }

  // A row as a query shows it: whole, or without its primary field.
  predicate Shows(c: Collection, e: Row) {
    exists k :: k in c.rows && (e == c.rows[k] || e == c.rows[k] - {c.schema.primary})
  }

  predicate Delivers(batches: seq<seq<Row>>, row: Row, primary: string) {
    exists i :: 0 <= i < |batches| && (row in batches[i] || row - {primary} in batches[i])
  }

  predicate BatchesOf(c: Collection, batches: seq<seq<Row>>, batchSize: nat, complete: bool) {
    && (forall i :: 0 <= i < |batches| ==> 0 < |batches[i]| <= batchSize && forall e :: e in batches[i] ==> Shows(c, e))
    && (complete ==> forall k :: k in c.rows ==> Delivers(batches, c.rows[k], c.schema.primary))
  }

  lemma BatchIsPartOfSource(c: Collection, entities: seq<Row>)
    requires Keyed(c)
    requires forall e :: e in entities ==> Shows(c, e) && c.schema.primary in e
    ensures Submap(ByKey(entities, c.schema.primary), c.rows)
  {
    var expected := ByKey(entities, c.schema.primary);
    forall k | k in expected ensures k in c.rows && expected[k] == c.rows[k] {
      assert Shows(c, expected[k]);
    }
  }

  lemma BatchIsCopied(c: Collection, entities: seq<Row>, rows: Rows)
    requires Keyed(c)
    requires forall e :: e in entities ==> Shows(c, e) && c.schema.primary in e
    requires Submap(ByKey(entities, c.schema.primary), rows)
    ensures Copied(entities, c.schema.primary, rows)
  {
    forall e | e in entities ensures e[c.schema.primary] in rows && rows[e[c.schema.primary]] == e {
      assert Shows(c, e);
      assert Shows(c, ByKey(entities, c.schema.primary)[e[c.schema.primary]]);
    }
  }

  // Within each batch rows are whole and have different keys.
  predicate Regular(c: Collection, batches: seq<seq<Row>>) {
    forall i :: 0 <= i < |batches| ==> Whole(batches[i], c.schema.primary)
  }

  predicate Whole(entities: seq<Row>, primary: string) {
    (forall e :: e in entities ==> primary in e) && |ByKey(entities, primary)| == |entities|
  }

  ghost predicate Copied(entities: seq<Row>, primary: string, rows: Rows) {
    forall e :: e in entities ==> primary in e && e[primary] in rows && rows[e[primary]] == e
  }

  // Rows that the target shares with the source stay there.
  ghost predicate Kept(source: Rows, before: Rows, after: Rows) {
    forall k :: k in before && k in source && before[k] == source[k] ==> k in after && after[k] == before[k]
  }

  // Batches of one row, for all rows but the rest.
  ghost predicate OneByOne(c: Collection, batches: seq<seq<Row>>, rest: set<string>) {
    && (forall b :: b in batches ==> |b| == 1 && b[0] in c.rows.Values)
    && forall j :: j in c.rows && j !in rest ==> Delivers(batches, c.rows[j], c.schema.primary)
  }

  method Singles(c: Collection, batchSize: nat) returns (batches: seq<seq<Row>>)
    requires Keyed(c) && batchSize > 0
    ensures BatchesOf(c, batches, batchSize, true)
    ensures Regular(c, batches)
  {
    batches := [];
    var rest := c.rows.Keys;
    while rest != {}
      invariant rest <= c.rows.Keys
      invariant OneByOne(c, batches, rest)
      decreases rest
    {
      var k :| k in rest;
      SinglesGrow(c, batches, rest, k);
      batches := batches + [[c.rows[k]]];
      rest := rest - {k};
    }
    SinglesAreRegular(c, batches, batchSize);
  }

  lemma SinglesGrow(c: Collection, batches: seq<seq<Row>>, rest: set<string>, k: string)
    requires k in c.rows && OneByOne(c, batches, rest)
    ensures OneByOne(c, batches + [[c.rows[k]]], rest - {k})
  {
    var after := batches + [[c.rows[k]]];
    assert c.rows[k] in after[|batches|];
    forall j | j in c.rows && j !in rest - {k} ensures Delivers(after, c.rows[j], c.schema.primary) {
      if j != k {
        var i :| 0 <= i < |batches| && (c.rows[j] in batches[i] || c.rows[j] - {c.schema.primary} in batches[i]);
        assert after[i] == batches[i];
      }
    }
  }

  lemma SingleIsWhole(c: Collection, batch: seq<Row>)
    requires Keyed(c) && |batch| == 1 && batch[0] in c.rows.Values
    ensures Whole(batch, c.schema.primary) && forall e :: e in batch ==> Shows(c, e)
  {
    var k :| k in c.rows && c.rows[k] == batch[0];
    assert batch == [batch[0]] && batch[..0] == [];
    assert ByKey(batch, c.schema.primary) == map[k := batch[0]];
  }

  lemma SinglesAreRegular(c: Collection, batches: seq<seq<Row>>, batchSize: nat)
    requires Keyed(c) && OneByOne(c, batches, {}) && batchSize > 0
    ensures BatchesOf(c, batches, batchSize, true)
    ensures Regular(c, batches)
  {
    forall i | 0 <= i < |batches|
      ensures 0 < |batches[i]| <= batchSize && (forall e :: e in batches[i] ==> Shows(c, e)) && Whole(batches[i], c.schema.primary) {
      assert batches[i] in batches;
      SingleIsWhole(c, batches[i]);
    }
  }

  // A complete iteration whose batches were all copied leaves the whole source in the target.
  lemma CompleteCopy(c: Collection, batches: seq<seq<Row>>, rows: Rows)
    requires Keyed(c)
    requires forall k :: k in c.rows ==> Delivers(batches, c.rows[k], c.schema.primary)
    requires forall i :: 0 <= i < |batches| ==> Copied(batches[i], c.schema.primary, rows)
    ensures Submap(c.rows, rows)
  {
    forall k | k in c.rows ensures k in rows && rows[k] == c.rows[k] {
      var i :| 0 <= i < |batches| && (c.rows[k] in batches[i] || c.rows[k] - {c.schema.primary} in batches[i]);
      assert Copied(batches[i], c.schema.primary, rows);
    }
  }

  lemma StillCopied(c: Collection, entities: seq<Row>, before: Rows, after: Rows)
    requires Keyed(c) && forall e :: e in entities ==> Shows(c, e)
    requires Copied(entities, c.schema.primary, before) && Kept(c.rows, before, after)
    ensures Copied(entities, c.schema.primary, after)
  {
    forall e | e in entities ensures e[c.schema.primary] in after && after[e[c.schema.primary]] == e {
      assert Shows(c, e);
    }
  }

  // Reading back what was written shows that every shared row is still there.
  lemma ReadBackKeeps(source: Rows, before: Rows, expected: Rows, data: Rows, after: Rows)
    requires Submap(expected, source) && Submap(data, expected)
    requires forall k :: k in before && k !in data ==> k in after && after[k] == before[k]
    requires expected == map k | k in expected && k in after :: after[k]
    ensures Kept(source, before, after)
    ensures Submap(expected, after)
  {
    var actual := map k | k in expected && k in after :: after[k];
    assert forall k :: k in expected ==> k in actual && actual[k] == after[k];
  }

  // Whether rows keep their identifiers: an upsert replaces automatic ones, and an insert keeps
  // them only while the policy allows it.
  predicate KeepsIds(c: Collection, insert: bool) {
    if insert then c.schema.autoId ==> c.policy == "true" else !c.schema.autoId
  }

  // What a write may do to the rows: a faithful one stores some of the data; no write disturbs
  // rows with other identifiers.
  predicate Written(faithful: bool, rows: Rows, data: Rows, after: Rows) {
    && (forall k :: k in rows && k !in data ==> k in after && after[k] == rows[k])
    && (faithful ==> forall k :: k in after ==> (k in rows && after[k] == rows[k]) || (k in data && after[k] == data[k]))
    && (faithful ==> forall k :: k in rows ==> k in after)
  }

  // What a successful attempt found: the source as expected, and a target that equals it.
  ghost predicate Matching(l: Lane, source: Snapshot, policy: string, found: (Snapshot, Snapshot), cs: Collections) {
    && l.legacy in cs && l.current in cs
    && found.0 == source == SnapshotOf(cs[l.legacy], source.ready)
    && found.1 == SnapshotOf(cs[l.current], true)
    && cs[l.current].rows == cs[l.legacy].rows
    && SameShape(cs[l.current], cs[l.legacy])
    && cs[l.current].policy == policy
  }

  predicate SameShape(a: Collection, b: Collection) { a.schema == b.schema && a.index == b.index }

  // An interrupted migration resumes unless untrusted rows are in its target.
  ghost predicate Resumable(l: Lane, es: seq<Event>, cs: Collections) {
    && Active(es) && l.legacy in cs
    && (l.current in cs && !Trusted(es, cs[l.legacy].schema.autoId) ==> cs[l.current].rows == map[])
  }

  ghost predicate Startable(l: Lane, cs: Collections) {
    && l.legacy in cs
    && (l.current in cs ==> cs[l.current].rows == map[] && SameShape(cs[l.current], cs[l.legacy]))
  }

  predicate Proper(authorized: bool, batchSize: int, timeout: real) {
    authorized && 1 <= batchSize <= 5000 && 0.0 < timeout <= 1800.0
  }

  ghost predicate CanFinish(l: Lane, es: seq<Event>, cs: Collections, inventory: string) {
    if es == [] then Startable(l, cs)
    else Resumable(l, es, cs) && exists e :: LastStart(es, es[0].id) == Some(e) && e.inventory == inventory
  }

  // The first start records the policy that the target has before the migration touches it.
  ghost predicate BeginsRight(l: Lane, first: Event, cs: Collections) {
    && first.Started? && l.legacy in cs
    && first.source == MarkerOf(SnapshotOf(cs[l.legacy], true))
    && first.targetPolicy == (if l.current in cs then cs[l.current].policy else cs[l.legacy].policy)
    && (l.current in cs ==> cs[l.current].rows == map[])
    && first.strategy == if cs[l.legacy].schema.autoId then InsertMissing else Upsert
  }

  datatype MigrationResult = MigrationResult(rolledBack: bool, id: string, sourceCount: nat, targetCount: nat, alreadyComplete: bool)

  // What a command must refuse before it has any effect: no source, a foreign inventory, or a target
  // that holds rows or has another shape.
  ghost predicate Refused(l: Lane, es: seq<Event>, cs: Collections, inventory: string) {
    || (!Settled(es) && l.legacy !in cs)
    || (es == [] && !Startable(l, cs))
    || (Active(es) && forall e :: LastStart(es, es[0].id) == Some(e) ==> e.inventory != inventory)
  }

  // A verified migration that still stands: the source as recorded, the target at most grown.
  ghost predicate Stands(l: Lane, e: Event, cs: Collections) {
    && e.Verified? && l.legacy in cs && l.current in cs
    && var source, target := cs[l.legacy], cs[l.current];
       && |source.rows| == e.source.count && |target.rows| >= e.target.count
       && source.schema == e.source.schema && source.index == e.source.index && source.policy == e.source.policy
       && target.schema == e.target.schema && target.index == e.target.index && target.policy == e.target.policy
  }

  // It may be reported again, unless an older program copied automatic identifiers by upserts.
  ghost predicate Reusable(l: Lane, e: Event, cs: Collections) {
    Stands(l, e, cs) && (cs[l.legacy].schema.autoId ==> e.strategy == InsertMissing)
  }

  ghost predicate Reports(r: MigrationResult, l: Lane, e: Event, cs: Collections, already: bool) {
    && r.id == e.id && r.alreadyComplete == already
    && l.legacy in cs && l.current in cs && r.sourceCount == |cs[l.legacy].rows| && r.targetCount == |cs[l.current].rows|
  }

  function Last(es: seq<Event>): Event
    requires es != []
  {
    es[|es| - 1]
  }

  lemma SubmapsAreEqual(a: Rows, b: Rows)
    requires Submap(a, b) && Submap(b, a)
    ensures a == b
  {
  }

  // ---------- What each effect keeps ----------

  function FirstStart(l: Lane, source: Snapshot, inventory: string, id: string, policy: string): Event {
    Started(id, l, inventory, MarkerOf(source), policy, if source.schema.autoId then InsertMissing else Upsert)
  }

  lemma StartIsIntact(faithful: bool, l: Lane, inventory: string, id: string, policy: string, cs: Collections)
    requires Intact(faithful, l, [], cs) && Startable(l, cs)
    requires policy == if l.current in cs then cs[l.current].policy else cs[l.legacy].policy
    ensures var e := FirstStart(l, SnapshotOf(cs[l.legacy], true), inventory, id, policy);
            Intact(faithful, l, [e], cs) && BeginsRight(l, e, cs)
  {
  }

  lemma FirstIsIntact(faithful: bool, l: Lane, e: Event, es: seq<Event>, cs: Collections)
    requires Intact(faithful, l, [e], cs) && Intact(faithful, l, [], cs)
    requires es == [] || es == [] + [e]
    ensures Intact(faithful, l, es, cs) && es in {[], [e]}
  {
    assert [] + [e] == [e];
  }

  lemma RecordKeepsIntact(faithful: bool, l: Lane, es: seq<Event>, e: Event, cs: Collections)
    requires Intact(faithful, l, es, cs) && es != [] && Extends(es, e)
    requires e.Started? ==> e.strategy == InsertMissing && (l.current in cs ==> cs[l.current].rows == map[])
    ensures Intact(faithful, l, es + [e], cs)
  {
    HistoryExtends(es, e);
    if Attempt(e) {
      assert (es + [e])[..|es|] == es;
      assert e.Failed? ==> LastStart(es + [e], e.id) == LastStart(es, e.id);
      assert Agrees(es[0], es[|es| - 1]);
    }
  }

  lemma TargetChangeKeepsIntact(faithful: bool, l: Lane, es: seq<Event>, cs: Collections, cs': Collections)
    requires Intact(faithful, l, es, cs) && l.legacy != l.current && SameBut(cs, cs', l.current)
    requires Active(es) && l.current in cs'
    requires faithful ==> TargetKept(l, es, cs')
    ensures Intact(faithful, l, es, cs')
  {
  }

  lemma ResumableIsSmall(l: Lane, es: seq<Event>, cs: Collections)
    requires Intact(true, l, es, cs) && Resumable(l, es, cs) && l.current in cs
    ensures |cs[l.current].rows| <= |cs[l.legacy].rows|
  {
    var target, source := cs[l.current].rows, cs[l.legacy].rows;
    assert target.Keys <= source.Keys;
    SubsetIsSmaller(target.Keys, source.Keys);
  }

  lemma SubsetIsSmaller<T>(a: set<T>, b: set<T>)
    requires a <= b
    ensures |a| <= |b|
  {
    assert b == a + (b - a);
  }

  lemma SameIds(es: seq<Event>)
    requires History(es) && es != []
    ensures es[|es| - 1].id == es[0].id
  {
    assert Agrees(es[0], es[|es| - 1]);
  }

  lemma StartedRecordsAgree(es: seq<Event>, e: Event)
    requires History(es) && e in es
    ensures Agrees(es[0], e)
  {
    var i :| 0 <= i < |es| && es[i] == e;
  }

  function Restarted(l: Lane, started: Event): Event
    requires started.Started?
  {
    Started(started.id, l, started.inventory, started.source, started.targetPolicy, InsertMissing)
  }

  lemma RestartExtends(es: seq<Event>, started: Event, e: Event)
    requires History(es) && Active(es) && started in es && started.Started? && e == Restarted(e.lane, started)
    ensures Extends(es, e)
  {
    StartedRecordsAgree(es, started);
  }

  lemma LastStartExists(es: seq<Event>)
    requires History(es) && es != []
    ensures LastStart(es, es[|es| - 1].id).Some? && es[|es| - 1].id == es[0].id
  {
    SameIds(es);
    SomeStart(es, |es|);
    assert es[..|es|] == es;
  }

  lemma VerifiedExtends(l: Lane, es: seq<Event>, e: Event, found: (Snapshot, Snapshot), cs: Collections)
    requires History(es) && Active(es) && l.legacy in cs && es[0].source == MarkerOf(SnapshotOf(cs[l.legacy], true))
    requires e.Verified? && e.lane == l && e.id == es[0].id
    requires e.source == MarkerOf(found.0) && e.target == MarkerOf(found.1)
    requires Matching(l, SnapshotOf(cs[l.legacy], true), es[0].targetPolicy, found, cs)
    ensures Extends(es, e) && Certifies(e, cs)
  {
  }

  // ---------- The executor ----------

  datatype Error = VerificationError | OtherError

  // A call may return, raise an exception, or be cut short by the death of the process.
  datatype Outcome<T> = Ok(value: T) | Raised(error: Error) | Died

  function Failure<T, U>(r: Outcome<T>): (f: Outcome<U>)
    requires !r.Ok?
    ensures f.Died? <==> r.Died?
    ensures f.Raised? ==> r.Raised? && f.error == r.error
    ensures !f.Ok?
  {
    if r.Died? then Died else Raised(r.error)
  }

  datatype Done = Done

  // The log gained records of one lane, and each new verified one certifies the truth.
  ghost predicate Grows(l: Lane, log: seq<Event>, certified: seq<bool>, log': seq<Event>, certified': seq<bool>) {
    && |log| == |certified| <= |log'| == |certified'|
    && log'[..|log|] == log && certified'[..|log|] == certified
    && forall i :: |log| <= i < |log'| ==> log'[i].lane == l && (log'[i].Verified? ==> certified'[i])
  }

  lemma GrowsByNothing(l: Lane, log: seq<Event>, certified: seq<bool>)
    requires |certified| == |log|
    ensures Grows(l, log, certified, log, certified)
  {
  }

  lemma GrowsByOne(log: seq<Event>, certified: seq<bool>, e: Event, sound: bool)
    requires |certified| == |log| && (e.Verified? ==> sound)
    ensures Grows(e.lane, log, certified, log + [e], certified + [sound])
  {
  }

  lemma StillStarted(l: Lane, log: seq<Event>, log': seq<Event>, e: Event)
    requires |log| <= |log'| && log'[..|log|] == log && e in Project(log, l)
    ensures e in Project(log', l)
  {
    ProjectMembers(log, l);
    ProjectMembers(log', l);
    assert e in log'[..|log|];
  }

  lemma GrowsTwice(l: Lane, a: seq<Event>, ca: seq<bool>, b: seq<Event>, cb: seq<bool>, c: seq<Event>, cc: seq<bool>)
    requires Grows(l, a, ca, b, cb) && Grows(l, b, cb, c, cc)
    ensures Grows(l, a, ca, c, cc)
  {
    assert c[..|a|] == c[..|b|][..|a|] && cc[..|a|] == cc[..|b|][..|a|];
    forall i | |a| <= i < |c| ensures c[i].lane == l && (c[i].Verified? ==> cc[i]) {
      if i < |b| {
        assert c[..|b|][i] == b[i] && cc[..|b|][i] == cb[i];
      }
    }
  }

  class UserCollectionMigrationExecutor {
    var collections: Collections
    var log: seq<Event>
    var torn: bool                 // the last record was written in part, so the log is no longer valid
    var calm: bool                 // nothing raises, dies or stays incomplete while this holds

    var recording: bool            // the log takes every record while this holds

    // A faithful client stores nothing but rows it was given, though perhaps not all of them.  Any
    // other client may corrupt what it writes and add rows, but its iterators deliver every row.
    const faithful: bool

    // For each record, whether it was written at an instant at which it certified the truth.
    ghost var certified: seq<bool>

    // ---------- The log ----------

    method ReadLog() returns (r: Outcome<seq<Event>>)
      ensures r.Ok? ==> r.value == log && !torn
      ensures calm && !torn ==> r.Ok?
    {
      r := *;
      if torn {
        if r.Ok? {
          r := Raised(OtherError);
        }
      } else if calm || r.Ok? {
        r := Ok(log);
      }
    }

    method Append(e: Event) returns (r: Outcome<Done>)
      requires |certified| == |log| && (e.Verified? ==> Certifies(e, collections))
      modifies this`log, this`torn, this`certified
      ensures Project(log, e.lane) == old(Project(log, e.lane)) + (if log == old(log) then [] else [e])
      ensures log == old(log) || log == old(log) + [e]
      ensures r.Ok? ==> log != old(log) && torn == old(torn)
      ensures recording && !old(torn) ==> torn == old(torn)
      ensures Grows(e.lane, old(log), old(certified), log, certified)
      ensures (calm || recording) && !old(torn) ==> r.Ok?
    {
      r := *;
      var written: bool := *;
      var partly: bool := *;
      if torn {
        if r.Ok? {
          r := Raised(OtherError);
        }
      } else {
        if calm || recording {
          r := Ok(Done);
        }
        if r.Ok? || written {
          ProjectExtends(log, e, e.lane);
          GrowsByOne(log, certified, e, Certifies(e, collections));
          log, certified := log + [e], certified + [Certifies(e, collections)];
        } else {
          torn := partly;
        }
      }
    }

    // Appends a legal first record of a lane.
    method AppendFirst(l: Lane, e: Event) returns (r: Outcome<Event>)
      requires Intact(faithful, l, [e], collections) && Intact(faithful, l, [], collections) && e.lane == l && e.Started?
      requires Project(log, l) == [] && |certified| == |log|
      modifies this`log, this`torn, this`certified
      ensures Intact(faithful, l, Project(log, l), collections)
      ensures Grows(l, old(log), old(certified), log, certified)
      ensures Project(log, l) == if log == old(log) then [] else [e]
      ensures r.Ok? ==> r.value == e && log != old(log) && torn == old(torn)
      ensures (calm || recording) && !old(torn) ==> r.Ok?
      ensures recording && !old(torn) ==> !torn
    {
      var appended := Append(e);
      ghost var es := Project(log, l);
      assert es == [] || es == [] + [e];
      FirstIsIntact(faithful, l, e, es, collections);
      r := if appended.Ok? then Ok(e) else Failure(appended);
    }

    // Appends a legal further record of a lane.
    method AppendNext(l: Lane, e: Event) returns (r: Outcome<Done>)
      requires Intact(faithful, l, Project(log, l), collections) && Project(log, l) != [] && |certified| == |log|
      requires Extends(Project(log, l), e) && e.lane == l
      requires e.Started? ==> e.strategy == InsertMissing && (l.current in collections ==> collections[l.current].rows == map[])
      requires e.Verified? ==> Certifies(e, collections)
      modifies this`log, this`torn, this`certified
      ensures Intact(faithful, l, Project(log, l), collections)
      ensures Grows(l, old(log), old(certified), log, certified)
      ensures Project(log, l) == old(Project(log, l)) + if log == old(log) then [] else [e]
      ensures r.Ok? ==> log != old(log) && torn == old(torn)
      ensures (calm || recording) && !old(torn) ==> r.Ok?
      ensures recording && !old(torn) ==> !torn
    {
      RecordKeepsIntact(faithful, l, Project(log, l), e, collections);
      r := Append(e);
    }

    // ---------- The client ----------

    method HasCollection(name: string) returns (r: Outcome<bool>)
      ensures r.Ok? ==> r.value == (name in collections)
      ensures calm ==> r.Ok?
    {
      r := *;
      if calm || r.Ok? {
        r := Ok(name in collections);
      }
    }

    method Inspect(name: string) returns (r: Outcome<Snapshot>)
      ensures r.Ok? ==> name in collections && r.value == SnapshotOf(collections[name], r.value.ready)
      ensures calm && name in collections ==> r.Ok? && r.value.ready
    {
      r := *;
      var ready: bool := *;
      if name !in collections {
        if r.Ok? {
          r := Raised(OtherError);
        }
      } else if calm || r.Ok? {
        r := Ok(SnapshotOf(collections[name], calm || ready));
      }
    }

    // Creates the target with the schema and the indexes of the source.
    method Clone(source: string, target: string) returns (r: Outcome<Done>)
      requires source in collections && target !in collections
      modifies this`collections
      ensures SameBut(old(collections), collections, target)
      ensures target in collections ==> collections[target].rows == map[]
      ensures faithful && target in collections ==> collections[target] == collections[source].(rows := map[])
      ensures r.Ok? ==> target in collections
      ensures calm ==> r.Ok?
    {
      r := *;
      var made: bool := *;
      var other: Collection := *;
      if calm {
        r := Ok(Done);
      }
      if r.Ok? || made {
        collections := collections[target := (if faithful then collections[source] else other).(rows := map[])];
      }
    }

    method SetPolicy(name: string, policy: string) returns (r: Outcome<Done>)
      requires name in collections
      modifies this`collections
      ensures SameBut(old(collections), collections, name)
      ensures collections[name] == old(collections)[name].(policy := collections[name].policy)
      ensures collections[name].policy in {old(collections)[name].policy, policy}
      ensures r.Ok? ==> collections[name].policy == policy
      ensures calm ==> r.Ok?
    {
      r := *;
      var made: bool := *;
      if calm {
        r := Ok(Done);
      }
      if r.Ok? || made {
        collections := collections[name := collections[name].(policy := policy)];
      }
    }

    // Inserts or upserts rows; an insert is never given an identifier that the collection has, since
    // the store would then keep both rows.  An implausible choice of the environment counts as a failed call.
    method Write(name: string, data: Rows, insert: bool) returns (r: Outcome<Done>)
      requires name in collections && (insert ==> data.Keys !! collections[name].rows.Keys)
      modifies this`collections
      ensures SameBut(old(collections), collections, name)
      ensures collections[name] == old(collections)[name].(rows := collections[name].rows)
      ensures var honest := faithful && KeepsIds(old(collections)[name], insert);
              && Written(honest, old(collections)[name].rows, data, collections[name].rows)
              && (calm && honest ==> r.Ok? && collections[name].rows == old(collections)[name].rows + data)
    {
      r := *;
      var after: Rows := *;
      var rows := collections[name].rows;
      var honest := faithful && KeepsIds(collections[name], insert);
      if calm && honest {
        r, after := Ok(Done), rows + data;
      }
      if Written(honest, rows, data, after) {
        collections := collections[name := collections[name].(rows := after)];
      } else if r.Ok? {
        r := Raised(OtherError);
      }
    }

    // The rows with these identifiers, by a strong read.
    method Get(name: string, ids: set<string>) returns (r: Outcome<Rows>)
      ensures r.Ok? ==> name in collections && r.value == map k | k in ids && k in collections[name].rows :: collections[name].rows[k]
      ensures calm && name in collections ==> r.Ok?
    {
      r := *;
      if name !in collections {
        if r.Ok? {
          r := Raised(OtherError);
        }
      } else if calm || r.Ok? {
        r := Ok(map k | k in ids && k in collections[name].rows :: collections[name].rows[k]);
      }
    }

    // A whole iteration over a collection; each of its batches may still fail to arrive.
    method QueryIterator(name: string, batchSize: nat) returns (r: Outcome<seq<seq<Row>>>)
      requires name in collections && batchSize > 0
      ensures r.Ok? ==> BatchesOf(collections[name], r.value, batchSize, !faithful || calm)
      ensures r.Ok? && calm ==> Regular(collections[name], r.value)
      ensures calm && Keyed(collections[name]) ==> r.Ok?
    {
      r := *;
      var c := collections[name];
      var plausible := r.Ok? && BatchesOf(c, r.value, batchSize, !faithful || calm) && (calm ==> Regular(c, r.value));
      if !plausible && calm && Keyed(c) {
        var batches := Singles(c, batchSize);
        r := Ok(batches);
      } else if !plausible && r.Ok? {
        r := Raised(OtherError);
      }
    }

    method Deliver(batch: seq<Row>) returns (r: Outcome<seq<Row>>)
      ensures r.Ok? ==> r.value == batch
      ensures calm ==> r.Ok?
    {
      r := *;
      if calm || r.Ok? {
        r := Ok(batch);
      }
    }

    // ---------- Copying ----------

    // What is to be written: for automatic identifiers only the rows that are missing.
    method Missing(l: Lane, expected: Rows, autoId: bool) returns (r: Outcome<Rows>)
      requires l.current in collections
      ensures r.Ok? ==> Submap(r.value, expected)
      ensures r.Ok? && autoId ==> r.value.Keys !! collections[l.current].rows.Keys
      ensures r.Ok? ==> forall k :: k in expected && k !in r.value ==>
                          k in collections[l.current].rows && collections[l.current].rows[k] == expected[k]
      ensures calm && (forall k :: k in expected && k in collections[l.current].rows ==> collections[l.current].rows[k] == expected[k]) ==> r.Ok?
    {
      if !autoId {
        return Ok(expected);
      }
      var existing := Get(l.current, expected.Keys);
      if !existing.Ok? {
        return Failure(existing);
      }
      if exists k :: k in existing.value && expected[k] != existing.value[k] {
        return Raised(VerificationError);
      }
      r := Ok(map k | k in expected && k !in existing.value :: expected[k]);
    }

    // Writes rows and compares what a strong read then returns.
    method WriteAndCompare(l: Lane, expected: Rows, data: Rows, autoId: bool) returns (r: Outcome<Done>)
      requires l.legacy in collections && l.current in collections && l.legacy != l.current
      requires KeepsIds(collections[l.current], autoId)
      requires Submap(expected, collections[l.legacy].rows) && Submap(data, expected)
      requires autoId ==> data.Keys !! collections[l.current].rows.Keys
      modifies this`collections
      ensures SameBut(old(collections), collections, l.current)
      ensures collections[l.current] == old(collections)[l.current].(rows := collections[l.current].rows)
      ensures faithful && Submap(old(collections)[l.current].rows, collections[l.legacy].rows) ==>
                Submap(collections[l.current].rows, collections[l.legacy].rows)
      ensures r.Ok? ==> Submap(expected, collections[l.current].rows)
      ensures r.Ok? ==> Kept(collections[l.legacy].rows, old(collections)[l.current].rows, collections[l.current].rows)
      ensures calm && faithful && Submap(expected, old(collections)[l.current].rows + data) ==> r.Ok?
    {
      ghost var before := collections[l.current].rows;
      if !autoId || data != map[] {
        var written := Write(l.current, data, autoId);
        if !written.Ok? {
          return Failure(written);
        }
      }
      var actual := Get(l.current, expected.Keys);
      if !actual.Ok? {
        return Failure(actual);
      }
      if actual.value != expected {
        return Raised(VerificationError);
      }
      ReadBackKeeps(collections[l.legacy].rows, before, expected, data, collections[l.current].rows);
      r := Ok(Done);
    }

    // Writes one batch, reads it back and compares it.
    method CopyBatch(l: Lane, entities: seq<Row>, primary: string, autoId: bool) returns (r: Outcome<nat>)
      requires l.legacy in collections && l.current in collections && l.legacy != l.current
      requires Keyed(collections[l.legacy]) && primary == collections[l.legacy].schema.primary
      requires forall e :: e in entities ==> Shows(collections[l.legacy], e)
      requires KeepsIds(collections[l.current], autoId)
      modifies this`collections
      ensures SameBut(old(collections), collections, l.current)
      ensures collections[l.current] == old(collections)[l.current].(rows := collections[l.current].rows)
      ensures faithful && Submap(old(collections)[l.current].rows, collections[l.legacy].rows) ==>
                Submap(collections[l.current].rows, collections[l.legacy].rows)
      ensures r.Ok? ==> r.value == |entities| && Copied(entities, primary, collections[l.current].rows)
      ensures r.Ok? ==> Kept(collections[l.legacy].rows, old(collections)[l.current].rows, collections[l.current].rows)
      ensures calm && faithful && Submap(old(collections)[l.current].rows, collections[l.legacy].rows) && Whole(entities, primary) ==>
                r.Ok?
    {
      if exists e :: e in entities && primary !in e {
        return Raised(VerificationError);
      }
      var expected := ByKey(entities, primary);
      BatchIsPartOfSource(collections[l.legacy], entities);
      if |expected| != |entities| {
        return Raised(VerificationError);
      }
      var data := Missing(l, expected, autoId);
      if !data.Ok? {
        return Failure(data);
      }
      var written := WriteAndCompare(l, expected, data.value, autoId);
      if !written.Ok? {
        return Failure(written);
      }
      BatchIsCopied(collections[l.legacy], entities, collections[l.current].rows);
      r := Ok(|entities|);
    }

    method CopyBatches(l: Lane, primary: string, batchSize: nat, autoId: bool) returns (r: Outcome<nat>)
      requires l.legacy in collections && l.current in collections && l.legacy != l.current && batchSize > 0
      requires Keyed(collections[l.legacy]) && primary == collections[l.legacy].schema.primary
      requires KeepsIds(collections[l.current], autoId)
      modifies this`collections
      ensures SameBut(old(collections), collections, l.current)
      ensures collections[l.current] == old(collections)[l.current].(rows := collections[l.current].rows)
      ensures faithful && Submap(old(collections)[l.current].rows, collections[l.legacy].rows) ==>
                Submap(collections[l.current].rows, collections[l.legacy].rows)
      ensures r.Ok? && (!faithful || calm) ==> Submap(collections[l.legacy].rows, collections[l.current].rows)
      ensures calm && faithful && Submap(old(collections)[l.current].rows, collections[l.legacy].rows) ==> r.Ok?
    {
      var query := QueryIterator(l.legacy, batchSize);
      if !query.Ok? {
        return Failure(query);
      }
      var batches := query.value;
      ghost var source := collections[l.legacy];
      ghost var trusted := faithful && Submap(collections[l.current].rows, source.rows);
      var copied: nat, i: nat := 0, 0;
      while i < |batches|
        invariant 0 <= i <= |batches|
        invariant SameBut(old(collections), collections, l.current)
        invariant collections[l.current] == old(collections)[l.current].(rows := collections[l.current].rows)
        invariant trusted ==> Submap(collections[l.current].rows, source.rows)
        invariant forall j :: 0 <= j < i ==> Copied(batches[j], primary, collections[l.current].rows)
      {
        var batch := Deliver(batches[i]);
        if !batch.Ok? {
          return Failure(batch);
        }
        ghost var before := collections[l.current].rows;
        var count := CopyBatch(l, batches[i], primary, autoId);
        if !count.Ok? {
          return Failure(count);
        }
        forall j | 0 <= j < i ensures Copied(batches[j], primary, collections[l.current].rows) {
          StillCopied(source, batches[j], before, collections[l.current].rows);
        }
        copied := copied + count.value;
        i := i + 1;
      }
      if !faithful || calm {
        CompleteCopy(source, batches, collections[l.current].rows);
      }
      r := Ok(copied);
    }

    // Allows automatic identifiers to be inserted while the rows are copied, then restores the policy.
    method CopyPreserving(l: Lane, primary: string, batchSize: nat, autoId: bool, restore: string) returns (r: Outcome<nat>)
      requires l.legacy in collections && l.current in collections && l.legacy != l.current && batchSize > 0
      requires Keyed(collections[l.legacy]) && primary == collections[l.legacy].schema.primary
      requires collections[l.current].schema.autoId == autoId
      modifies this`collections
      ensures SameBut(old(collections), collections, l.current)
      ensures collections[l.current] == old(collections)[l.current].(rows := collections[l.current].rows, policy := collections[l.current].policy)
      ensures !autoId ==> collections[l.current].policy == old(collections)[l.current].policy
      ensures r.Ok? && autoId ==> collections[l.current].policy == restore
      ensures calm && !r.Died? && autoId ==> collections[l.current].policy == restore
      ensures faithful && Submap(old(collections)[l.current].rows, collections[l.legacy].rows) ==>
                Submap(collections[l.current].rows, collections[l.legacy].rows)
      ensures r.Ok? && (!faithful || calm) ==> Submap(collections[l.legacy].rows, collections[l.current].rows)
      ensures calm && faithful && Submap(old(collections)[l.current].rows, collections[l.legacy].rows) ==> r.Ok?
    {
      if !autoId {
        r := CopyBatches(l, primary, batchSize, autoId);
        return;
      }
      var description := Inspect(l.current);
      if !description.Ok? {
        return Failure(description);
      }
      if description.value.policy != "true" {
        var allowed := SetPolicy(l.current, "true");
        if !allowed.Ok? {
          return Failure(allowed);
        }
      }
      r := CopyBatches(l, primary, batchSize, autoId);
      // An interrupt unwinds through the restoration; the death of the process does not.
      var unwinds: bool := *;
      if !r.Died? || unwinds {
        var restored := SetPolicy(l.current, restore);
        if !restored.Ok? && !r.Died? {
          r := Failure(restored);
        }
      }
    }

    // ---------- Waiting ----------

    method WaitForReadySnapshot(name: string) returns (r: Outcome<Snapshot>)
      ensures r.Ok? ==> name in collections && r.value == SnapshotOf(collections[name], true)
      ensures calm && name in collections ==> r.Ok?
    {
      var looks: nat := *;
      while true
        decreases looks
      {
        r := Inspect(name);
        if r.Died? || (r.Ok? && r.value.ready) {
          return;
        }
        if looks == 0 {
          return Raised(VerificationError);
        }
        looks := looks - 1;
      }
    }

    method WaitForPostCopyVerification(l: Lane, expected: Snapshot, policy: string) returns (r: Outcome<(Snapshot, Snapshot)>)
      ensures r.Ok? ==> l.legacy in collections && l.current in collections
      ensures r.Ok? ==> r.value.0 == expected == SnapshotOf(collections[l.legacy], expected.ready)
      ensures r.Ok? ==> r.value.1 == SnapshotOf(collections[l.current], true) && r.value.1.count == expected.count
      ensures r.Ok? ==> r.value.1.schema == expected.schema && r.value.1.index == expected.index && r.value.1.policy == policy
      ensures calm && l.legacy in collections && l.current in collections && expected == SnapshotOf(collections[l.legacy], true)
              && SnapshotOf(collections[l.current], true) == expected.(policy := policy)
              ==> r.Ok?
    {
      var looks: nat := *;
      while true
        decreases looks
      {
        var source := Inspect(l.legacy);
        if source.Died? || (source.Raised? && source.error.VerificationError?) {
          return Failure(source);
        }
        if source.Ok? {
          var target := Inspect(l.current);
          if target.Died? || (target.Raised? && target.error.VerificationError?) {
            return Failure(target);
          }
          if target.Ok? {
            if || source.value != expected
               || target.value.schema != expected.schema || target.value.index != expected.index
               || target.value.policy != policy
               || target.value.count > expected.count {
              return Raised(VerificationError);
            }
            if target.value.count == expected.count && target.value.ready {
              return Ok((source.value, target.value));
            }
          }
        }
        if looks == 0 {
          return Raised(VerificationError);
        }
        looks := looks - 1;
      }
    }

    // ---------- Migrating ----------

    // The policy that the target shall have in the end; a target that exists must be empty.
    method PolicyToRestore(l: Lane, source: Snapshot) returns (r: Outcome<string>)
      requires l.legacy in collections && source == SnapshotOf(collections[l.legacy], true)
      ensures r.Ok? ==> Startable(l, collections)
      ensures r.Ok? ==> r.value == if l.current in collections then collections[l.current].policy else source.policy
      ensures calm && Startable(l, collections) ==> r.Ok?
    {
      var present := HasCollection(l.current);
      if !present.Ok? {
        return Failure(present);
      }
      if !present.value {
        return Ok(source.policy);
      }
      var target := Inspect(l.current);
      if !target.Ok? {
        return Failure(target);
      }
      if target.value.count != 0 {
        return Raised(OtherError);
      }
      if target.value.schema != source.schema || target.value.index != source.index || !target.value.ready {
        return Raised(VerificationError);
      }
      r := Ok(target.value.policy);
    }

    method Start(l: Lane, source: Snapshot, inventory: string, id: string) returns (r: Outcome<Event>)
      requires l.legacy in collections && source == SnapshotOf(collections[l.legacy], true) && l.legacy != l.current
      requires Intact(faithful, l, [], collections) && Project(log, l) == [] && |certified| == |log|
      modifies this`log, this`torn, this`certified
      ensures Intact(faithful, l, Project(log, l), collections)
      ensures Grows(l, old(log), old(certified), log, certified)
      ensures r.Ok? ==> Project(log, l) == [r.value] && torn == old(torn) && exists p :: r.value == FirstStart(l, source, inventory, id, p)
      ensures Project(log, l) != [] ==> BeginsRight(l, Project(log, l)[0], collections)
      ensures calm && !old(torn) && Startable(l, collections) ==> r.Ok?
      ensures !Startable(l, collections) ==> !r.Ok? && log == old(log)
      ensures recording && !old(torn) ==> !torn && (r.Ok? || log == old(log))
    {
      var policy := PolicyToRestore(l, source);
      if !policy.Ok? {
        return Failure(policy);
      }
      StartIsIntact(faithful, l, inventory, id, policy.value, collections);
      r := AppendFirst(l, FirstStart(l, source, inventory, id, policy.value));
    }

    method CloneIfMissing(l: Lane) returns (r: Outcome<Done>)
      requires l.legacy in collections && l.legacy != l.current
      requires Intact(faithful, l, Project(log, l), collections) && Active(Project(log, l))
      modifies this`collections
      ensures Intact(faithful, l, Project(log, l), collections)
      ensures SameBut(old(collections), collections, l.current)
      ensures r.Ok? ==> l.current in collections
      ensures Resumable(l, Project(log, l), old(collections)) ==> Resumable(l, Project(log, l), collections)
      ensures calm ==> r.Ok?
    {
      ghost var es, before := Project(log, l), collections;
      var present := HasCollection(l.current);
      if !present.Ok? {
        return Failure(present);
      }
      if !present.value {
        r := Clone(l.legacy, l.current);
        if l.current in collections {
          TargetChangeKeepsIntact(faithful, l, es, before, collections);
        }
      } else {
        r := Ok(Done);
      }
    }

    // An old start that used upserts for automatic identifiers may only be resumed with an empty
    // target, under a new start.
    method RestartIfUntrusted(l: Lane, autoId: bool, started: Event) returns (r: Outcome<Done>)
      requires l.legacy in collections && l.current in collections && autoId == collections[l.legacy].schema.autoId
      requires Intact(faithful, l, Project(log, l), collections) && Active(Project(log, l)) && |certified| == |log|
      requires LastStart(Project(log, l), Project(log, l)[0].id) == Some(started)
      modifies this`log, this`torn, this`certified
      ensures Intact(faithful, l, Project(log, l), collections)
      ensures Grows(l, old(log), old(certified), log, certified)
      ensures Active(Project(log, l)) && Project(log, l)[0] == old(Project(log, l))[0]
      ensures r.Ok? && faithful ==> Submap(collections[l.current].rows, collections[l.legacy].rows)
      ensures calm && !old(torn) && old(Resumable(l, Project(log, l), collections)) ==> r.Ok? && !torn
      ensures recording && !old(torn) ==> !torn
    {
      ghost var es := Project(log, l);
      SameIds(es);
      if autoId && started.strategy != InsertMissing {
        if |collections[l.current].rows| != 0 {
          return Raised(OtherError);
        }
        RestartExtends(es, started, Restarted(l, started));
        r := AppendNext(l, Restarted(l, started));
        assert Project(log, l)[0] == es[0];
      } else {
        r := Ok(Done);
      }
    }

    // Creates the target when it is missing and checks that it may receive the rows.
    method Prepare(l: Lane, source: Snapshot, started: Event) returns (r: Outcome<Done>)
      requires l.legacy in collections && source == SnapshotOf(collections[l.legacy], true) && l.legacy != l.current
      requires Intact(faithful, l, Project(log, l), collections) && Active(Project(log, l)) && |certified| == |log|
      requires LastStart(Project(log, l), Project(log, l)[0].id) == Some(started)
      modifies this`collections, this`log, this`torn, this`certified
      ensures Intact(faithful, l, Project(log, l), collections)
      ensures SameBut(old(collections), collections, l.current)
      ensures Grows(l, old(log), old(certified), log, certified)
      ensures Active(Project(log, l)) && Project(log, l)[0] == old(Project(log, l))[0]
      ensures r.Ok? ==> l.current in collections && collections[l.current].schema == source.schema
      ensures r.Ok? && faithful ==> Submap(collections[l.current].rows, collections[l.legacy].rows)
      ensures calm && faithful && !old(torn) && old(Resumable(l, Project(log, l), collections)) ==> r.Ok? && !torn
      ensures recording && !old(torn) ==> !torn
    {
      r := CloneIfMissing(l);
      if !r.Ok? {
        return;
      }
      var target := WaitForReadySnapshot(l.current);
      if !target.Ok? {
        return Failure(target);
      }
      if target.value.schema != source.schema || target.value.index != source.index || target.value.count > source.count {
        if calm && faithful && Resumable(l, Project(log, l), collections) {
          ResumableIsSmall(l, Project(log, l), collections);
        }
        return Raised(VerificationError);
      }
      r := RestartIfUntrusted(l, source.schema.autoId, started);
    }

    // Copies the rows and verifies the copy.
    method CopyAndVerify(l: Lane, source: Snapshot, policy: string, batchSize: nat) returns (r: Outcome<(Snapshot, Snapshot)>)
      requires l.legacy in collections && source == SnapshotOf(collections[l.legacy], true) && l.legacy != l.current
      requires l.current in collections && Keyed(collections[l.legacy]) && batchSize > 0
      requires faithful ==> Submap(collections[l.current].rows, collections[l.legacy].rows)
      requires collections[l.current].schema == source.schema
      modifies this`collections
      ensures SameBut(old(collections), collections, l.current)
      ensures collections[l.current] == old(collections)[l.current].(rows := collections[l.current].rows, policy := collections[l.current].policy)
      ensures !source.schema.autoId ==> collections[l.current].policy == old(collections)[l.current].policy
      ensures faithful ==> Submap(collections[l.current].rows, collections[l.legacy].rows)
      ensures calm && !r.Died? && source.schema.autoId ==> collections[l.current].policy == policy
      ensures r.Ok? ==> Matching(l, source, policy, r.value, collections)
      ensures calm && faithful && SameShape(old(collections)[l.current], collections[l.legacy]) ==>
                (!source.schema.autoId ==> old(collections)[l.current].policy == policy) ==> r.Ok?
    {
      var copied := CopyPreserving(l, source.schema.primary, batchSize, source.schema.autoId, policy);
      if !copied.Ok? {
        return Failure(copied);
      }
      if faithful && calm {
        SubmapsAreEqual(collections[l.legacy].rows, collections[l.current].rows);
      }
      r := WaitForPostCopyVerification(l, source, policy);
      if r.Ok? {
        if faithful {
          SameSizeSameRows(collections[l.current].rows, collections[l.legacy].rows);
        } else {
          SameSizeSameRows(collections[l.legacy].rows, collections[l.current].rows);
        }
      }
    }

    // The part of a migration whose failures are recorded.
    method Try(l: Lane, source: Snapshot, started: Event, batchSize: nat) returns (r: Outcome<(Snapshot, Snapshot)>)
      requires l.legacy in collections && source == SnapshotOf(collections[l.legacy], true) && l.legacy != l.current
      requires Intact(faithful, l, Project(log, l), collections) && Active(Project(log, l)) && |certified| == |log|
      requires LastStart(Project(log, l), Project(log, l)[0].id) == Some(started) && batchSize > 0
      modifies this`collections, this`log, this`torn, this`certified
      ensures Intact(faithful, l, Project(log, l), collections)
      ensures SameBut(old(collections), collections, l.current)
      ensures Grows(l, old(log), old(certified), log, certified)
      ensures Active(Project(log, l)) && Project(log, l)[0] == old(Project(log, l))[0]
      ensures r.Ok? ==> Matching(l, source, started.targetPolicy, r.value, collections)
      ensures calm && faithful && !old(torn) && old(Resumable(l, Project(log, l), collections)) ==> r.Ok? && !torn
      ensures recording && !old(torn) ==> !torn
    {
      var prepared := Prepare(l, source, started);
      if !prepared.Ok? {
        return Failure(prepared);
      }
      ghost var before := collections;
      r := CopyAndVerify(l, source, started.targetPolicy, batchSize);
      TargetChangeKeepsIntact(faithful, l, Project(log, l), before, collections);
    }

    // The start under which to proceed: the last one of an interrupted migration, or a new one.
    method FindStart(l: Lane, source: Snapshot, inventory: string, id: string) returns (r: Outcome<Event>)
      requires l.legacy in collections && source == SnapshotOf(collections[l.legacy], true) && l.legacy != l.current
      requires Intact(faithful, l, Project(log, l), collections) && |certified| == |log|
      requires Active(Project(log, l)) || Project(log, l) == []
      modifies this`log, this`torn, this`certified
      ensures Intact(faithful, l, Project(log, l), collections)
      ensures Grows(l, old(log), old(certified), log, certified)
      ensures r.Ok? ==> Active(Project(log, l)) && LastStart(Project(log, l), Project(log, l)[0].id) == Some(r.value) && torn == old(torn)
      ensures old(Project(log, l)) == [] && Project(log, l) != [] ==> BeginsRight(l, Project(log, l)[0], collections)
      ensures calm && !old(torn) && old(CanFinish(l, Project(log, l), collections, inventory)) ==>
                r.Ok? && Resumable(l, Project(log, l), collections)
      ensures Refused(l, old(Project(log, l)), collections, inventory) ==> !r.Ok? && log == old(log)
      ensures recording && !old(torn) ==> !torn && (r.Ok? || log == old(log))
    {
      var events := Project(log, l);
      if events == [] {
        r := Start(l, source, inventory, id);
        return;
      }
      LastStartExists(events);
      var started := LastStart(events, events[|events| - 1].id).value;
      if started.inventory != inventory {
        return Raised(OtherError);
      }
      if !MatchesMarker(source, started.source, false) {
        StartedRecordsAgree(events, started);
        return Raised(VerificationError);
      }
      r := Ok(started);
    }

    method RecordFailure(l: Lane, started: Event, inventory: string, error: Error) returns (r: Outcome<MigrationResult>)
      requires Intact(faithful, l, Project(log, l), collections) && Active(Project(log, l)) && |certified| == |log|
      requires started in Project(log, l) && started.Started?
      modifies this`log, this`torn, this`certified
      ensures Intact(faithful, l, Project(log, l), collections)
      ensures Grows(l, old(log), old(certified), log, certified)
      ensures Project(log, l) != [] && Project(log, l)[0] == old(Project(log, l))[0]
      ensures recording && !old(torn) && !r.Died? ==> Last(Project(log, l)) == Failed(started.id, l, inventory, started.targetPolicy)
      ensures !r.Ok?
    {
      StartedRecordsAgree(Project(log, l), started);
      var recorded := AppendNext(l, Failed(started.id, l, inventory, started.targetPolicy));
      r := if recorded.Ok? then Raised(error) else Failure(recorded);
    }

    method RecordSuccess(l: Lane, source: Snapshot, found: (Snapshot, Snapshot), started: Event, inventory: string)
      returns (r: Outcome<MigrationResult>)
      requires Intact(faithful, l, Project(log, l), collections) && Active(Project(log, l)) && |certified| == |log|
      requires started in Project(log, l) && started.Started?
      requires l.legacy in collections && source == SnapshotOf(collections[l.legacy], true)
      requires Matching(l, source, started.targetPolicy, found, collections)
      modifies this`log, this`torn, this`certified
      ensures Intact(faithful, l, Project(log, l), collections)
      ensures Grows(l, old(log), old(certified), log, certified)
      ensures Project(log, l) != [] && Project(log, l)[0] == old(Project(log, l))[0]
      ensures r.Ok? ==> Project(log, l)[|Project(log, l)| - 1].Verified? && Project(log, l)[|Project(log, l)| - 1].id == r.value.id
      ensures calm && !old(torn) ==> r.Ok?
      ensures r.Ok? ==> Reports(r.value, l, Last(Project(log, l)), collections, false)
      ensures r.Ok? ==> Reusable(l, Last(Project(log, l)), collections)
      ensures recording && !old(torn) ==> r.Ok?
    {
      StartedRecordsAgree(Project(log, l), started);
      var strategy := if source.schema.autoId then InsertMissing else Upsert;
      var verified := Verified(started.id, l, inventory, MarkerOf(found.0), MarkerOf(found.1), strategy);
      VerifiedExtends(l, Project(log, l), verified, found, collections);
      var recorded := AppendNext(l, verified);
      r := if recorded.Ok? then Ok(MigrationResult(false, started.id, found.0.count, found.1.count, false)) else Failure(recorded);
    }

    // Records what a try came to.
    method Conclude(l: Lane, source: Snapshot, found: Outcome<(Snapshot, Snapshot)>, started: Event, inventory: string)
      returns (r: Outcome<MigrationResult>)
      requires Intact(faithful, l, Project(log, l), collections) && Active(Project(log, l)) && |certified| == |log|
      requires started in Project(log, l) && started.Started? && !found.Died?
      requires l.legacy in collections && source == SnapshotOf(collections[l.legacy], true)
      requires found.Ok? ==> Matching(l, source, started.targetPolicy, found.value, collections)
      modifies this`log, this`torn, this`certified
      ensures Intact(faithful, l, Project(log, l), collections)
      ensures Grows(l, old(log), old(certified), log, certified)
      ensures Project(log, l) != [] && Project(log, l)[0] == old(Project(log, l))[0]
      ensures r.Ok? ==> Last(Project(log, l)).Verified?
      ensures r.Ok? ==> Reusable(l, Last(Project(log, l)), collections) && Reports(r.value, l, Last(Project(log, l)), collections, false)
      ensures recording && !old(torn) && r.Raised? ==> Last(Project(log, l)).Failed?
      ensures calm && !old(torn) && found.Ok? ==> r.Ok?
    {
      if found.Raised? {
        r := RecordFailure(l, started, inventory, found.error);
      } else {
        r := RecordSuccess(l, source, found.value, started, inventory);
      }
    }

    // Tries, and records a failure or the verified migration.
    method Finish(l: Lane, source: Snapshot, started: Event, inventory: string, batchSize: nat) returns (r: Outcome<MigrationResult>)
      requires l.legacy in collections && source == SnapshotOf(collections[l.legacy], true) && l.legacy != l.current
      requires Intact(faithful, l, Project(log, l), collections) && Active(Project(log, l)) && |certified| == |log|
      requires LastStart(Project(log, l), Project(log, l)[0].id) == Some(started) && batchSize > 0
      modifies this`collections, this`log, this`torn, this`certified
      ensures Intact(faithful, l, Project(log, l), collections)
      ensures SameBut(old(collections), collections, l.current)
      ensures Grows(l, old(log), old(certified), log, certified)
      ensures Project(log, l) != [] && Project(log, l)[0] == old(Project(log, l))[0]
      ensures r.Ok? ==> Project(log, l)[|Project(log, l)| - 1].Verified? && Project(log, l)[|Project(log, l)| - 1].id == r.value.id
      ensures calm && faithful && !old(torn) && old(Resumable(l, Project(log, l), collections)) ==> r.Ok?
      ensures r.Ok? ==> Reusable(l, Last(Project(log, l)), collections) && Reports(r.value, l, Last(Project(log, l)), collections, false)
      ensures recording && !old(torn) && r.Raised? ==> Last(Project(log, l)).Failed?
    {
      var found := Try(l, source, started, batchSize);
      if found.Died? {
        return Died;
      }
      ghost var log1, certified1 := log, certified;
      StillStarted(l, old(log), log, started);
      r := Conclude(l, source, found, started, inventory);
      GrowsTwice(l, old(log), old(certified), log1, certified1, log, certified);
    }

    // Checks that a verified migration still stands; the target may have grown.
    method Recheck(l: Lane, verified: Event, isRollback: bool) returns (r: Outcome<(Snapshot, Snapshot)>)
      requires verified.Verified?
      ensures r.Ok? ==> MatchesMarker(r.value.0, verified.source, false) && MatchesMarker(r.value.1, verified.target, true)
      ensures r.Ok? ==> !isRollback && r.value.0.schema.autoId ==> verified.strategy == InsertMissing
      ensures r.Ok? ==> Stands(l, verified, collections)
      ensures r.Ok? ==> !isRollback ==> Reusable(l, verified, collections)
      ensures r.Ok? ==> r.value.0 == SnapshotOf(collections[l.legacy], true) && r.value.1 == SnapshotOf(collections[l.current], true)
      ensures calm && Stands(l, verified, collections) && (isRollback || Reusable(l, verified, collections)) ==> r.Ok?
    {
      if isRollback {
        var legacy := HasCollection(l.legacy);
        if !legacy.Ok? {
          return Failure(legacy);
        }
        var current := HasCollection(l.current);
        if !current.Ok? {
          return Failure(current);
        }
        if !legacy.value || !current.value {
          return Raised(VerificationError);
        }
      }
      var source := Inspect(l.legacy);
      if !source.Ok? {
        return Failure(source);
      }
      var target := Inspect(l.current);
      if !target.Ok? {
        return Failure(target);
      }
      if !isRollback && source.value.schema.autoId && verified.strategy != InsertMissing {
        return Raised(OtherError);
      }
      if !MatchesMarker(source.value, verified.source, false) || !MatchesMarker(target.value, verified.target, true) {
        return Raised(VerificationError);
      }
      r := Ok((source.value, target.value));
    }

    method Reconfirm(l: Lane, verified: Event) returns (r: Outcome<MigrationResult>)
      requires verified.Verified?
      ensures r.Ok? ==> r.value.id == verified.id
      ensures r.Ok? ==> Reusable(l, verified, collections) && Reports(r.value, l, verified, collections, true)
      ensures calm && Reusable(l, verified, collections) ==> r.Ok?
    {
      var still := Recheck(l, verified, false);
      r := if still.Ok? then Ok(MigrationResult(false, verified.id, still.value.0.count, still.value.1.count, true)) else Failure(still);
    }

    /** One migrate command for one lane, under the lock of the log. */
    method Migrate(l: Lane, authorized: bool, inventory: string, id: string, batchSize: int, timeout: real)
      returns (r: Outcome<MigrationResult>)
      requires l.legacy != l.current && Intact(faithful, l, Project(log, l), collections) && |certified| == |log|
      modifies this`collections, this`log, this`torn, this`certified
      ensures Intact(faithful, l, Project(log, l), collections)
      ensures SameBut(old(collections), collections, l.current)
      ensures Grows(l, old(log), old(certified), log, certified)
      ensures Settled(old(Project(log, l))) ==> log == old(log) && collections == old(collections)
      ensures r.Ok? ==> Project(log, l) != [] && Project(log, l)[|Project(log, l)| - 1].Verified?
      ensures r.Ok? ==> Project(log, l)[|Project(log, l)| - 1].id == r.value.id
      ensures old(Project(log, l)) == [] && Project(log, l) != [] ==> BeginsRight(l, Project(log, l)[0], old(collections))
      ensures calm && faithful && !old(torn) && Proper(authorized, batchSize, timeout) ==>
                old(CanFinish(l, Project(log, l), collections, inventory)) ==> r.Ok?
      ensures r.Ok? ==> Reusable(l, Last(Project(log, l)), collections) && Reports(r.value, l, Last(Project(log, l)), collections, old(Settled(Project(log, l))))
      ensures recording && !old(torn) && r.Raised? ==>
                (log == old(log) && collections == old(collections)) || (Project(log, l) != [] && Last(Project(log, l)).Failed?)
      ensures old(Refused(l, Project(log, l), collections, inventory)) ==> !r.Ok? && log == old(log) && collections == old(collections)
      ensures !authorized || batchSize < 1 || batchSize > 5000 || timeout <= 0.0 || timeout > 1800.0 ==>
                r.Raised? && log == old(log) && collections == old(collections)
      ensures authorized && 1 <= batchSize <= 5000 && 0.0 < timeout <= 1800.0 && calm && !old(torn) ==>
                old(Settled(Project(log, l)) && Last(Project(log, l)).Verified? && Reusable(l, Last(Project(log, l)), collections)) ==> r.Ok?
    {
      GrowsByNothing(l, log, certified);
      if batchSize < 1 || batchSize > 5000 || !(0.0 < timeout <= 1800.0) || !authorized {
        return Raised(OtherError);
      }
      r := MigrateAuthorized(l, inventory, id, batchSize);
    }

    // Settled migrations are only looked at.
    method MigrateAuthorized(l: Lane, inventory: string, id: string, batchSize: nat) returns (r: Outcome<MigrationResult>)
      requires l.legacy != l.current && Intact(faithful, l, Project(log, l), collections) && |certified| == |log| && batchSize > 0
      modifies this`collections, this`log, this`torn, this`certified
      ensures Intact(faithful, l, Project(log, l), collections)
      ensures SameBut(old(collections), collections, l.current)
      ensures Grows(l, old(log), old(certified), log, certified)
      ensures Settled(old(Project(log, l))) ==> log == old(log) && collections == old(collections)
      ensures r.Ok? ==> Project(log, l) != [] && Project(log, l)[|Project(log, l)| - 1].Verified?
      ensures r.Ok? ==> Project(log, l)[|Project(log, l)| - 1].id == r.value.id
      ensures old(Project(log, l)) == [] && Project(log, l) != [] ==> BeginsRight(l, Project(log, l)[0], old(collections))
      ensures calm && faithful && !old(torn) && old(CanFinish(l, Project(log, l), collections, inventory)) ==> r.Ok?
      ensures r.Ok? ==> Reusable(l, Last(Project(log, l)), collections) && Reports(r.value, l, Last(Project(log, l)), collections, old(Settled(Project(log, l))))
      ensures recording && !old(torn) && r.Raised? ==>
                (log == old(log) && collections == old(collections)) || (Project(log, l) != [] && Last(Project(log, l)).Failed?)
      ensures old(Refused(l, Project(log, l), collections, inventory)) ==> !r.Ok? && log == old(log) && collections == old(collections)
      ensures old(Settled(Project(log, l)) && Last(Project(log, l)).Verified? && Reusable(l, Last(Project(log, l)), collections)) ==>
                calm && !old(torn) ==> r.Ok?
    {
      GrowsByNothing(l, log, certified);
      var read := ReadLog();
      if !read.Ok? {
        return Failure(read);
      }
      var events := Project(read.value, l);
      if events != [] && events[|events| - 1].RolledBack? {
        return Raised(OtherError);
      }
      if events != [] && events[|events| - 1].Verified? {
        r := Reconfirm(l, events[|events| - 1]);
        return;
      }
      r := MigrateUnsettled(l, inventory, id, batchSize);
    }

    // A migration that has not yet been verified.
    method MigrateUnsettled(l: Lane, inventory: string, id: string, batchSize: nat) returns (r: Outcome<MigrationResult>)
      requires l.legacy != l.current && Intact(faithful, l, Project(log, l), collections) && |certified| == |log|
      requires (Active(Project(log, l)) || Project(log, l) == []) && batchSize > 0
      modifies this`collections, this`log, this`torn, this`certified
      ensures Intact(faithful, l, Project(log, l), collections)
      ensures SameBut(old(collections), collections, l.current)
      ensures Grows(l, old(log), old(certified), log, certified)
      ensures r.Ok? ==> Project(log, l) != [] && Project(log, l)[|Project(log, l)| - 1].Verified?
      ensures r.Ok? ==> Project(log, l)[|Project(log, l)| - 1].id == r.value.id
      ensures old(Project(log, l)) == [] && Project(log, l) != [] ==> BeginsRight(l, Project(log, l)[0], old(collections))
      ensures calm && faithful && !old(torn) && old(CanFinish(l, Project(log, l), collections, inventory)) ==> r.Ok?
      ensures r.Ok? ==> Reusable(l, Last(Project(log, l)), collections) && Reports(r.value, l, Last(Project(log, l)), collections, false)
      ensures recording && !old(torn) && r.Raised? ==>
                (log == old(log) && collections == old(collections)) || (Project(log, l) != [] && Last(Project(log, l)).Failed?)
      ensures old(Refused(l, Project(log, l), collections, inventory)) ==> !r.Ok? && log == old(log) && collections == old(collections)
    {
      GrowsByNothing(l, log, certified);
      var present := HasCollection(l.legacy);
      if !present.Ok? {
        return Failure(present);
      }
      if !present.value {
        return Raised(OtherError);
      }
      var source := Inspect(l.legacy);
      if !source.Ok? {
        return Failure(source);
      }
      if !source.value.ready {
        return Raised(VerificationError);
      }
      r := Proceed(l, source.value, inventory, id, batchSize);
    }

    method Proceed(l: Lane, source: Snapshot, inventory: string, id: string, batchSize: nat) returns (r: Outcome<MigrationResult>)
      requires l.legacy in collections && source == SnapshotOf(collections[l.legacy], true) && l.legacy != l.current
      requires Intact(faithful, l, Project(log, l), collections) && |certified| == |log| && batchSize > 0
      requires Active(Project(log, l)) || Project(log, l) == []
      modifies this`collections, this`log, this`torn, this`certified
      ensures Intact(faithful, l, Project(log, l), collections)
      ensures SameBut(old(collections), collections, l.current)
      ensures Grows(l, old(log), old(certified), log, certified)
      ensures r.Ok? ==> Project(log, l) != [] && Project(log, l)[|Project(log, l)| - 1].Verified?
      ensures r.Ok? ==> Project(log, l)[|Project(log, l)| - 1].id == r.value.id
      ensures old(Project(log, l)) == [] && Project(log, l) != [] ==> BeginsRight(l, Project(log, l)[0], old(collections))
      ensures calm && faithful && !old(torn) && old(CanFinish(l, Project(log, l), collections, inventory)) ==> r.Ok?
      ensures r.Ok? ==> Reusable(l, Last(Project(log, l)), collections) && Reports(r.value, l, Last(Project(log, l)), collections, false)
      ensures recording && !old(torn) && r.Raised? ==>
                (log == old(log) && collections == old(collections)) || (Project(log, l) != [] && Last(Project(log, l)).Failed?)
      ensures old(Refused(l, Project(log, l), collections, inventory)) ==> !r.Ok? && log == old(log) && collections == old(collections)
    {
      var started := FindStart(l, source, inventory, id);
      if !started.Ok? {
        return Failure(started);
      }
      ghost var log1, certified1 := log, certified;
      r := Finish(l, source, started.value, inventory, batchSize);
      GrowsTwice(l, old(log), old(certified), log1, certified1, log, certified);
    }

    // The record of a rollback, after the collections were checked once more.
    method RollBackVerified(l: Lane, verified: Event, inventory: string) returns (r: Outcome<MigrationResult>)
      requires Intact(faithful, l, Project(log, l), collections) && |certified| == |log|
      requires Project(log, l) != [] && Last(Project(log, l)) == verified && verified.Verified?
      modifies this`log, this`torn, this`certified
      ensures Intact(faithful, l, Project(log, l), collections)
      ensures Grows(l, old(log), old(certified), log, certified)
      ensures Project(log, l) != [] && (log != old(log) ==> Last(Project(log, l)).RolledBack? && Last(Project(log, l)).id == verified.id)
      ensures log != old(log) || r.Ok? ==> Stands(l, verified, collections)
      ensures r.Ok? ==> log != old(log) && r.value.rolledBack && r.value.id == verified.id && !r.value.alreadyComplete
      ensures calm && !old(torn) && Stands(l, verified, collections) ==> r.Ok?
    {
      GrowsByNothing(l, log, certified);
      var found := Recheck(l, verified, true);
      if !found.Ok? {
        return Failure(found);
      }
      var marker := RolledBack(verified.id, l, inventory, MarkerOf(found.value.0), MarkerOf(found.value.1));
      StartedRecordsAgree(Project(log, l), verified);
      var recorded := AppendNext(l, marker);
      r := if recorded.Ok? then Ok(MigrationResult(true, marker.id, marker.source.count, marker.target.count, false)) else Failure(recorded);
    }

    method RollbackAuthorized(l: Lane, inventory: string) returns (r: Outcome<MigrationResult>)
      requires Intact(faithful, l, Project(log, l), collections) && |certified| == |log|
      modifies this`log, this`torn, this`certified
      ensures Intact(faithful, l, Project(log, l), collections)
      ensures Grows(l, old(log), old(certified), log, certified)
      ensures log != old(log) || r.Ok? ==>
                old(Project(log, l)) != [] && Project(log, l) != [] && Last(Project(log, l)).RolledBack?
                && Last(Project(log, l)).id == old(Last(Project(log, l))).id
      ensures log != old(log) ==> Stands(l, old(Last(Project(log, l))), collections)
      ensures calm && !old(torn) ==>
                (r.Ok? <==> old(Project(log, l)) != [] && (old(Last(Project(log, l))).RolledBack? || Stands(l, old(Last(Project(log, l))), collections)))
      ensures r.Ok? ==> r.value.rolledBack && r.value.id == Last(Project(log, l)).id && r.value.alreadyComplete == (log == old(log))
    {
      GrowsByNothing(l, log, certified);
      var read := ReadLog();
      if !read.Ok? {
        return Failure(read);
      }
      var events := Project(read.value, l);
      if events != [] && events[|events| - 1].RolledBack? {
        var marker := events[|events| - 1];
        return Ok(MigrationResult(true, marker.id, marker.source.count, marker.target.count, true));
      }
      var verified := LastVerified(events);
      if verified.None? || !events[|events| - 1].Verified? {
        return Raised(OtherError);
      }
      r := RollBackVerified(l, verified.value, inventory);
    }

    /** One rollback command: a record, and no change to either collection. */
    method Rollback(l: Lane, authorized: bool, inventory: string, reason: string) returns (r: Outcome<MigrationResult>)
      requires Intact(faithful, l, Project(log, l), collections) && |certified| == |log|
      modifies this`log, this`torn, this`certified
      ensures Intact(faithful, l, Project(log, l), collections)
      ensures Grows(l, old(log), old(certified), log, certified)
      ensures !(old(Project(log, l)) != [] && old(Project(log, l))[|old(Project(log, l))| - 1].Verified?) ==> log == old(log)
      ensures log != old(log) ==> Project(log, l)[|Project(log, l)| - 1].RolledBack?
      ensures r.Ok? ==> Project(log, l) != [] && Project(log, l)[|Project(log, l)| - 1].RolledBack?
      ensures !authorized || |Strip(reason)| < 10 ==> r.Raised? && log == old(log)
      ensures log != old(log) ==> Stands(l, old(Last(Project(log, l))), collections) && Last(Project(log, l)).id == old(Last(Project(log, l))).id
      ensures authorized && |Strip(reason)| >= 10 && calm && !old(torn) ==>
                (r.Ok? <==> old(Project(log, l)) != [] && (old(Last(Project(log, l))).RolledBack? || Stands(l, old(Last(Project(log, l))), collections)))
      ensures r.Ok? ==> r.value.rolledBack && r.value.id == Last(Project(log, l)).id && r.value.alreadyComplete == (log == old(log))
    {
      GrowsByNothing(l, log, certified);
      if |Strip(reason)| < 10 || !authorized {
        return Raised(OtherError);
      }
      r := RollbackAuthorized(l, inventory);
    }
  }

  // ---------- Whole runs ----------

  datatype Command =
    | MigrateCommand(lane: Lane, authorized: bool, inventory: string, id: string, batchSize: int, timeout: real)
    | RollbackCommand(lane: Lane, authorized: bool, inventory: string, reason: string)

  // The hashed name of a lane is no other lane's collection.
  ghost predicate Separate(lanes: set<Lane>) {
    forall l, m :: l in lanes && m in lanes ==> l.current != m.legacy && (l != m ==> l.current != m.current)
  }

  ghost predicate AllIntact(faithful: bool, lanes: set<Lane>, log: seq<Event>, cs: Collections) {
    forall l :: l in lanes ==> Intact(faithful, l, Project(log, l), cs)
  }

  /** Records of one lane are invisible to every other. */
  lemma {:induction false} OtherHistoriesStay(l: Lane, m: Lane, log: seq<Event>, log': seq<Event>)
    requires l != m && |log| <= |log'| && log'[..|log|] == log
    requires forall i :: |log| <= i < |log'| ==> log'[i].lane == l
    ensures Project(log', m) == Project(log, m)
    decreases |log'|
  {
    if |log| < |log'| {
      var n := |log'| - 1;
      assert log'[..n][..|log|] == log;
      OtherHistoriesStay(l, m, log, log'[..n]);
    } else {
      assert log' == log;
    }
  }

  lemma CommandKeepsAllIntact(faithful: bool, lanes: set<Lane>, l: Lane, log: seq<Event>, certified: seq<bool>, cs: Collections,
                              log': seq<Event>, certified': seq<bool>, cs': Collections)
    requires Separate(lanes) && l in lanes && AllIntact(faithful, lanes, log, cs)
    requires Grows(l, log, certified, log', certified') && SameBut(cs, cs', l.current)
    requires Intact(faithful, l, Project(log', l), cs')
    ensures AllIntact(faithful, lanes, log', cs')
  {
    forall m | m in lanes ensures Intact(faithful, m, Project(log', m), cs') {
      if m != l {
        OtherHistoriesStay(l, m, log, log');
      }
    }
  }

  // Between commands anything may happen to collections, except to those of an active migration.
  predicate Quiesced(lanes: set<Lane>, log: seq<Event>, cs: Collections, cs': Collections) {
    forall l :: l in lanes ==>
      && (l.legacy in cs' ==> Keyed(cs'[l.legacy]))
      && (Active(Project(log, l)) ==>
            && (l.legacy in cs <==> l.legacy in cs') && (l.legacy in cs ==> cs'[l.legacy] == cs[l.legacy])
            && (l.current in cs <==> l.current in cs') && (l.current in cs ==> cs'[l.current] == cs[l.current]))
  }

  lemma QuiescenceKeepsAllIntact(faithful: bool, lanes: set<Lane>, log: seq<Event>, cs: Collections, cs': Collections)
    requires AllIntact(faithful, lanes, log, cs) && Quiesced(lanes, log, cs, cs')
    ensures AllIntact(faithful, lanes, log, cs')
  {
  }

  // The log was only appended to, and its new verified records certify the truth.
  ghost predicate Certified(before: seq<Event>, log: seq<Event>, certified: seq<bool>) {
    && |certified| == |log| >= |before| && log[..|before|] == before
    && forall i :: |before| <= i < |log| && log[i].Verified? ==> certified[i]
  }

  lemma StillCertified(before: seq<Event>, l: Lane, log: seq<Event>, certified: seq<bool>, log': seq<Event>, certified': seq<bool>)
    requires Certified(before, log, certified) && Grows(l, log, certified, log', certified')
    ensures Certified(before, log', certified')
  {
    assert log'[..|before|] == log'[..|log|][..|before|];
    forall i | |before| <= i < |log'| && log'[i].Verified? ensures certified'[i] {
      if i < |log| {
        assert log'[i] == log'[..|log|][i] && certified'[i] == certified'[..|log|][i];
      }
    }
  }

  /**
   * Any sequence of commands, each of which may fail or die anywhere: every lane stays intact, and
   * each verified record is written at an instant at which the target equals the source.
   */
  method Run(x: UserCollectionMigrationExecutor, lanes: set<Lane>, commands: seq<Command>)
    requires Separate(lanes) && forall c :: c in commands ==> c.lane in lanes
    requires AllIntact(x.faithful, lanes, x.log, x.collections) && |x.certified| == |x.log|
    modifies x
    ensures AllIntact(x.faithful, lanes, x.log, x.collections)
    ensures Certified(old(x.log), x.log, x.certified)
  {
    for n := 0 to |commands|
      invariant AllIntact(x.faithful, lanes, x.log, x.collections)
      invariant Certified(old(x.log), x.log, x.certified)
    {
      BetweenCommands(x, lanes);
      ghost var log, certified := x.log, x.certified;
      RunOne(x, lanes, commands[n]);
      StillCertified(old(x.log), commands[n].lane, log, certified, x.log, x.certified);
    }
  }

  method BetweenCommands(x: UserCollectionMigrationExecutor, lanes: set<Lane>)
    requires AllIntact(x.faithful, lanes, x.log, x.collections)
    modifies x`collections, x`calm, x`recording
    ensures AllIntact(x.faithful, lanes, x.log, x.collections)
    ensures Quiesced(lanes, x.log, old(x.collections), x.collections) || x.collections == old(x.collections)
  {
    var collections: Collections := *;
    if Quiesced(lanes, x.log, x.collections, collections) {
      QuiescenceKeepsAllIntact(x.faithful, lanes, x.log, x.collections, collections);
      x.collections := collections;
    }
    x.calm := *;
    x.recording := *;
  }

  method RunOne(x: UserCollectionMigrationExecutor, lanes: set<Lane>, c: Command)
    requires Separate(lanes) && c.lane in lanes
    requires AllIntact(x.faithful, lanes, x.log, x.collections) && |x.certified| == |x.log|
    modifies x
    ensures AllIntact(x.faithful, lanes, x.log, x.collections)
    ensures Grows(c.lane, old(x.log), old(x.certified), x.log, x.certified)
    ensures SameBut(old(x.collections), x.collections, c.lane.current)
    ensures Settled(old(Project(x.log, c.lane))) && c.MigrateCommand? ==> x.log == old(x.log) && x.collections == old(x.collections)
    ensures c.RollbackCommand? ==> x.collections == old(x.collections)
    ensures !c.authorized ==> x.log == old(x.log) && x.collections == old(x.collections)
  {
    match c {
      case MigrateCommand(l, authorized, inventory, id, batchSize, timeout) =>
        var _ := x.Migrate(l, authorized, inventory, id, batchSize, timeout);
      case RollbackCommand(l, authorized, inventory, reason) =>
        var _ := x.Rollback(l, authorized, inventory, reason);
    }
    CommandKeepsAllIntact(x.faithful, lanes, c.lane, old(x.log), old(x.certified), old(x.collections), x.log, x.certified, x.collections);
  }
}
