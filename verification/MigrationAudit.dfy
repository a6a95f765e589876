/**
 * The hash-chained, append-only audit log of the collection migration.
 *
 * A record is a dictionary whose `event_hash` is the SHA-256 of its other fields in canonical
 * JSON, among them its position and the hash of the record before it.  The digest is a parameter.
 */
module MigrationAudit {
  import opened Wrappers
  import opened Texts
  import opened CanonicalJson

  type Record = Fields

  // The hexadecimal SHA-256 of a text, and the 64 zeros that stand before the first record.
  datatype Digest = Digest(of: string -> string, zeros: string)

  ghost predicate CollisionFree(sha: Digest) {
    forall x, y :: sha.of(x) == sha.of(y) ==> x == y
  }

  // The fields that `append` adds to an event.
  datatype ChainKey = AuditVersion | Sequence | Previous | RecordedAt | EventHash

  function Key(k: ChainKey): string {
    match k
    case AuditVersion => "audit_version"
    case Sequence => "sequence"
    case Previous => "previous_hash"
    case RecordedAt => "recorded_at"
    case EventHash => "event_hash"
  }

  lemma KeysAreDistinct()
    ensures forall k, l :: Key(k) == Key(l) ==> k == l
  {
    forall k, l | Key(k) == Key(l) ensures k == l {
      assert Key(k)[0] == Key(l)[0] && |Key(k)| == |Key(l)|;
    }
  }

  // ---------- Dictionaries ----------

  function Get(fields: Fields, key: string): Option<Json> {
    match fields
    case NoField => None
    case Field(k, v, rest) => if k == key then Some(v) else Get(rest, key)
  }

  function Put(fields: Fields, key: string, value: Json): Fields {
    match fields
    case NoField => Field(key, value, NoField)
    case Field(k, v, rest) => if k == key then Field(k, value, rest) else Field(k, v, Put(rest, key, value))
  }

  lemma {:induction false} PutDenotes(fields: Fields, key: string, value: Json)
    requires UniqueKeysInFields(fields) && UniqueKeys(value)
    ensures UniqueKeysInFields(Put(fields, key, value))
    ensures DenoteFields(Put(fields, key, value)) == DenoteFields(fields)[key := Denote(value)]
  {
    match fields
    case NoField =>
    case Field(k, v, rest) =>
      if k == key {
        assert DenoteFields(rest)[k := Denote(v)][key := Denote(value)] == DenoteFields(rest)[key := Denote(value)];
      } else {
        PutDenotes(rest, key, value);
        PutBehind(k, v, rest, key, value);
      }
  }

  lemma UpdatesCommute<T>(m: map<string, T>, k: string, v: T, key: string, value: T)
    requires k != key
    ensures m[key := value][k := v] == m[k := v][key := value]
  {
  }

  lemma PutBehind(k: string, v: Json, rest: Fields, key: string, value: Json)
    requires k != key && DenoteFields(Put(rest, key, value)) == DenoteFields(rest)[key := Denote(value)]
    ensures DenoteFields(Put(Field(k, v, rest), key, value)) == DenoteFields(Field(k, v, rest))[key := Denote(value)]
    ensures Keys(Put(rest, key, value)) == Keys(rest) + {key}
  {
    UpdatesCommute(DenoteFields(rest), k, Denote(v), key, Denote(value));
    assert Put(Field(k, v, rest), key, value) == Field(k, v, Put(rest, key, value));
  }

  lemma {:induction false} GetAfterPut(fields: Fields, key: string, value: Json, k: string)
    ensures Get(Put(fields, key, value), k) == if k == key then Some(value) else Get(fields, k)
  {
    if fields.Field? && fields.key != key {
      GetAfterPut(fields.rest, key, value, k);
    }
  }

  lemma {:induction false} GetDenotes(fields: Fields, key: string)
    ensures match Get(fields, key)
            case None => key !in DenoteFields(fields)
            case Some(v) => key in DenoteFields(fields) && DenoteFields(fields)[key] == Denote(v)
  {
    if fields.Field? && fields.key != key {
      GetDenotes(fields.rest, key);
    }
  }

  // ---------- The chain ----------

  function Fingerprint(sha: Digest, fields: Fields): string { sha.of(Canonical(Obj(fields))) }

  function ClaimedHash(record: Record): string {
    match Get(record, Key(EventHash))
    case Some(Str(s)) => s
    case _ => ""
  }

  function PreviousHash(sha: Digest, records: seq<Record>): string {
    if records == [] then sha.zeros else ClaimedHash(records[|records| - 1])
  }

  // Python's `int` of a text: a sign, and digits with single underscores between them.
  function Digits(s: string, value: nat, afterDigit: bool): Option<nat>
    decreases |s|
  {
    if s == "" then if afterDigit then Some(value) else None
    else if IsDigit(s[0]) then Digits(s[1..], 10 * value + (s[0] as int - '0' as int), true)
    else if s[0] == '_' && afterDigit then Digits(s[1..], value, false)
    else None
  }

  function IntOfText(s: string): Option<int> {
    var t := Strip(s);
    if t != "" && t[0] == '-' then
      var n := Digits(t[1..], 0, false);
      if n.Some? then Some(-(n.value as int)) else None
    else
      var n := Digits(if t != "" && t[0] == '+' then t[1..] else t, 0, false);
      if n.Some? then Some(n.value) else None
  }

  // The position that a record claims; `None` where the conversion raises.
  function ClaimedSequence(v: Option<Json>): Option<int> {
    match v
    case None => Some(-1)
    case Some(Int(n)) => Some(n)
    case Some(Bool(b)) => Some(if b then 1 else 0)
    case Some(Str(s)) => IntOfText(s)
    case _ => None
  }

  predicate Links(sha: Digest, record: Record, sequence: nat, previous: string) {
    && ClaimedSequence(Get(record, Key(Sequence))) == Some(sequence)
    && Get(record, Key(Previous)) == Some(Str(previous))
    && ClaimedHash(record) == Fingerprint(sha, Remove(record, Key(EventHash)))
  }

  ghost predicate Chained(sha: Digest, records: seq<Record>)
    decreases |records|
  {
    records == [] ||
    var earlier, last := records[..|records| - 1], records[|records| - 1];
    Chained(sha, earlier) && UniqueKeysInFields(last) && Links(sha, last, |records|, PreviousHash(sha, earlier))
  }

  lemma {:induction false} PrefixIsChained(sha: Digest, records: seq<Record>, n: nat)
    requires Chained(sha, records) && n <= |records|
    ensures Chained(sha, records[..n])
    decreases |records|
  {
    if n == |records| {
      assert records[..n] == records;
    } else {
      assert records[..|records| - 1][..n] == records[..n];
      PrefixIsChained(sha, records[..|records| - 1], n);
    }
  }

  lemma ChainExtends(sha: Digest, records: seq<Record>, record: Record)
    requires UniqueKeysInFields(record)
    ensures Chained(sha, records + [record]) <==>
            Chained(sha, records) && Links(sha, record, |records| + 1, PreviousHash(sha, records))
  {
    assert (records + [record])[..|records|] == records;
  }

  lemma PreviousOfExtended(sha: Digest, records: seq<Record>, record: Record)
    ensures PreviousHash(sha, records + [record]) == ClaimedHash(record)
  {
  }

  lemma ValidateOneMore(sha: Digest, records: seq<Record>, i: nat)
    requires i < |records| && UniqueKeysInFields(records[i]) && Chained(sha, records[..i])
    ensures Chained(sha, records[..i + 1]) <==> Links(sha, records[i], i + 1, PreviousHash(sha, records[..i]))
    ensures PreviousHash(sha, records[..i + 1]) == ClaimedHash(records[i])
  {
    var earlier := records[..i];
    assert records[..i + 1] == earlier + [records[i]];
    ChainExtends(sha, earlier, records[i]);
    PreviousOfExtended(sha, earlier, records[i]);
  }

  // `_validate`: walks the log once and rejects the first record that breaks the chain.
  method Validate(sha: Digest, records: seq<Record>) returns (ok: bool)
    requires forall i :: 0 <= i < |records| ==> UniqueKeysInFields(records[i])
    ensures ok <==> Chained(sha, records)
  {
    var previousHash := sha.zeros;
    for i := 0 to |records|
      invariant previousHash == PreviousHash(sha, records[..i])
      invariant Chained(sha, records[..i])
    {
      ValidateOneMore(sha, records, i);
      if !Links(sha, records[i], i + 1, previousHash) {
        if Chained(sha, records) {
          PrefixIsChained(sha, records, i + 1);
        }
        return false;
      }
      previousHash := ClaimedHash(records[i]);
    }
    assert records[..|records|] == records;
    return true;
  }

  // What a log promises of its record at `i`: its position, the hash of the record before it, and
  // the hash of its own other fields.
  ghost predicate Certified(sha: Digest, records: seq<Record>, i: nat)
    requires i < |records|
  {
    && UniqueKeysInFields(records[i])
    && ClaimedSequence(Get(records[i], "sequence")) == Some(i + 1)
    && Get(records[i], "previous_hash") == Some(Str(if i == 0 then sha.zeros else ClaimedHash(records[i - 1])))
    && ClaimedHash(records[i]) == sha.of(Canonical(Obj(Remove(records[i], "event_hash"))))
  }

  ghost predicate AllCertified(sha: Digest, records: seq<Record>) {
    forall i :: 0 <= i < |records| ==> Certified(sha, records, i)
  }

  lemma AllCertifiedUnfolds(sha: Digest, records: seq<Record>)
    requires records != []
    ensures AllCertified(sha, records) <==>
            AllCertified(sha, records[..|records| - 1]) && Certified(sha, records, |records| - 1)
  {
    var earlier := records[..|records| - 1];
    forall i | 0 <= i < |earlier| ensures Certified(sha, records, i) <==> Certified(sha, earlier, i) {
      EarlierAreCertified(sha, records, i);
    }
  }

  /** A log is accepted exactly if each of its records, at its own place, is certified. */
  lemma {:induction false} ChainedMeansCertified(sha: Digest, records: seq<Record>)
    ensures Chained(sha, records) <==> AllCertified(sha, records)
    decreases |records|
  {
    if records != [] {
      ChainedMeansCertified(sha, records[..|records| - 1]);
      AllCertifiedUnfolds(sha, records);
      LastIsCertified(sha, records);
    }
  }

  lemma EarlierAreCertified(sha: Digest, records: seq<Record>, i: nat)
    requires i < |records| - 1
    ensures Certified(sha, records, i) <==> Certified(sha, records[..|records| - 1], i)
  {
    var earlier := records[..|records| - 1];
    assert earlier[i] == records[i] && (i > 0 ==> earlier[i - 1] == records[i - 1]);
  }

  lemma LastIsCertified(sha: Digest, records: seq<Record>)
    requires records != []
    ensures var n := |records| - 1;
            Certified(sha, records, n) <==>
            UniqueKeysInFields(records[n]) && Links(sha, records[n], n + 1, PreviousHash(sha, records[..n]))
  {
  }

  // The record that `append` writes: the event, the chain fields over it, and last the hash.
  function Unhashed(sha: Digest, records: seq<Record>, event: Fields, now: string): Fields {
    Put(Put(Put(Put(event, Key(AuditVersion), Int(1)), Key(Sequence), Int(|records| + 1)),
            Key(Previous), Str(PreviousHash(sha, records))),
        Key(RecordedAt), Str(now))
  }

  function NewRecord(sha: Digest, records: seq<Record>, event: Fields, now: string): Record {
    var unhashed := Unhashed(sha, records, event, now);
    Put(unhashed, Key(EventHash), Str(Fingerprint(sha, unhashed)))
  }

  lemma UnhashedIsADictionary(sha: Digest, records: seq<Record>, event: Fields, now: string)
    requires UniqueKeysInFields(event)
    ensures UniqueKeysInFields(Unhashed(sha, records, event, now))
  {
    var e1 := Put(event, Key(AuditVersion), Int(1));
    PutDenotes(event, Key(AuditVersion), Int(1));
    var e2 := Put(e1, Key(Sequence), Int(|records| + 1));
    PutDenotes(e1, Key(Sequence), Int(|records| + 1));
    var e3 := Put(e2, Key(Previous), Str(PreviousHash(sha, records)));
    PutDenotes(e2, Key(Previous), Str(PreviousHash(sha, records)));
    PutDenotes(e3, Key(RecordedAt), Str(now));
  }

  // The fields of a new record before its hash.
  lemma UnhashedHas(sha: Digest, records: seq<Record>, event: Fields, now: string, k: string)
    ensures Get(Unhashed(sha, records, event, now), k) ==
            if k == Key(RecordedAt) then Some(Str(now))
            else if k == Key(Previous) then Some(Str(PreviousHash(sha, records)))
            else if k == Key(Sequence) then Some(Int(|records| + 1))
            else if k == Key(AuditVersion) then Some(Int(1))
            else Get(event, k)
  {
    var e1 := Put(event, Key(AuditVersion), Int(1));
    var e2 := Put(e1, Key(Sequence), Int(|records| + 1));
    var e3 := Put(e2, Key(Previous), Str(PreviousHash(sha, records)));
    GetAfterPut(event, Key(AuditVersion), Int(1), k);
    GetAfterPut(e1, Key(Sequence), Int(|records| + 1), k);
    GetAfterPut(e2, Key(Previous), Str(PreviousHash(sha, records)), k);
    GetAfterPut(e3, Key(RecordedAt), Str(now), k);
  }

  lemma UnhashedDenotes(sha: Digest, records: seq<Record>, event: Fields, now: string)
    requires UniqueKeysInFields(event)
    ensures var u := Unhashed(sha, records, event, now);
            && UniqueKeysInFields(u)
            && Get(u, Key(Sequence)) == Some(Int(|records| + 1))
            && Get(u, Key(Previous)) == Some(Str(PreviousHash(sha, records)))
            && Get(u, Key(EventHash)) == Get(event, Key(EventHash))
  {
    KeysAreDistinct();
    UnhashedIsADictionary(sha, records, event, now);
    UnhashedHas(sha, records, event, now, Key(Sequence));
    UnhashedHas(sha, records, event, now, Key(Previous));
    UnhashedHas(sha, records, event, now, Key(EventHash));
  }

  // What `append` adds to an event, and nothing else.
  predicate IsChainKey(k: string) {
    k in [Key(AuditVersion), Key(Sequence), Key(Previous), Key(RecordedAt), Key(EventHash)]
  }

  lemma NewRecordKeepsTheEvent(sha: Digest, records: seq<Record>, event: Fields, now: string, k: string)
    requires !IsChainKey(k)
    ensures Get(NewRecord(sha, records, event, now), k) == Get(event, k)
  {
    var u := Unhashed(sha, records, event, now);
    UnhashedHas(sha, records, event, now, k);
    GetAfterPut(u, Key(EventHash), Str(Fingerprint(sha, u)), k);
  }

  lemma FingerprintBinds(sha: Digest, a: Fields, b: Fields)
    requires CollisionFree(sha) && UniqueKeysInFields(a) && UniqueKeysInFields(b)
    ensures Fingerprint(sha, a) == Fingerprint(sha, b) <==> DenoteFields(a) == DenoteFields(b)
  {
    CanonicalTextIsANormalForm(Obj(a), Obj(b));
    assert Denote(Obj(a)) == ObjValue(DenoteFields(a)) && Denote(Obj(b)) == ObjValue(DenoteFields(b));
  }

  lemma RemoveAfterPut(fields: Fields, key: string, value: Json)
    requires UniqueKeysInFields(fields) && UniqueKeys(value)
    ensures UniqueKeysInFields(Remove(Put(fields, key, value), key))
    ensures DenoteFields(Remove(Put(fields, key, value), key)) == DenoteFields(fields) <==> Get(fields, key) == None
  {
    PutDenotes(fields, key, value);
    RemoveDenotes(Put(fields, key, value), key);
    GetDenotes(fields, key);
    assert DenoteFields(Remove(Put(fields, key, value), key)) == DenoteFields(fields) - {key};
  }

  // The hash of a new record covers what validation recomputes exactly if the event brought no
  // `event_hash` of its own.
  lemma HashCovers(sha: Digest, u: Fields)
    requires CollisionFree(sha) && UniqueKeysInFields(u)
    ensures var r := Put(u, Key(EventHash), Str(Fingerprint(sha, u)));
            && UniqueKeysInFields(r)
            && (ClaimedHash(r) == Fingerprint(sha, Remove(r, Key(EventHash))) <==> Get(u, Key(EventHash)) == None)
  {
    var h := Str(Fingerprint(sha, u));
    PutDenotes(u, Key(EventHash), h);
    GetAfterPut(u, Key(EventHash), h, Key(EventHash));
    RemoveAfterPut(u, Key(EventHash), h);
    FingerprintBinds(sha, u, Remove(Put(u, Key(EventHash), h), Key(EventHash)));
  }

  lemma NewRecordLinks(sha: Digest, records: seq<Record>, event: Fields, now: string)
    requires CollisionFree(sha) && UniqueKeysInFields(event)
    ensures var r := NewRecord(sha, records, event, now);
            && UniqueKeysInFields(r)
            && (Links(sha, r, |records| + 1, PreviousHash(sha, records)) <==> Get(event, Key(EventHash)) == None)
  {
    var u := Unhashed(sha, records, event, now);
    var h := Str(Fingerprint(sha, u));
    KeysAreDistinct();
    UnhashedDenotes(sha, records, event, now);
    GetAfterPut(u, Key(EventHash), h, Key(Sequence));
    GetAfterPut(u, Key(EventHash), h, Key(Previous));
    HashCovers(sha, u);
  }

  // A record is accepted after the log exactly if its event brings no `event_hash` of its own.
  lemma AppendedIsAccepted(sha: Digest, records: seq<Record>, event: Fields, now: string)
    requires CollisionFree(sha) && Chained(sha, records) && UniqueKeysInFields(event)
    ensures Chained(sha, records + [NewRecord(sha, records, event, now)]) <==> Get(event, Key(EventHash)) == None
  {
    NewRecordLinks(sha, records, event, now);
    ChainExtends(sha, records, NewRecord(sha, records, event, now));
  }

  // ---------- The last hash determines the whole log ----------

  lemma SameFieldAndRest(a: Fields, b: Fields, key: string)
    requires UniqueKeysInFields(a) && UniqueKeysInFields(b)
    requires DenoteFields(Remove(a, key)) == DenoteFields(Remove(b, key))
    requires Get(a, key) == Get(b, key) && Get(a, key).Some?
    ensures DenoteFields(a) == DenoteFields(b)
  {
    RemoveDenotes(a, key);
    RemoveDenotes(b, key);
    GetDenotes(a, key);
    GetDenotes(b, key);
    MapsAgree(DenoteFields(a), DenoteFields(b), key);
  }

  lemma MapsAgree<T>(a: map<string, T>, b: map<string, T>, key: string)
    requires a - {key} == b - {key} && key in a && key in b && a[key] == b[key]
    ensures a == b
  {
    forall k ensures (k in a <==> k in b) && (k in a ==> a[k] == b[k]) {
      assert k != key ==> (k in a <==> k in a - {key}) && (k in b <==> k in b - {key});
    }
  }

  // A digest never produces the empty string, nor the placeholder before the first record.
  ghost predicate Proper(sha: Digest) {
    CollisionFree(sha) && forall x :: sha.of(x) != "" && sha.of(x) != sha.zeros
  }

  lemma SameLogsExtend(p: seq<Record>, x: Record, q: seq<Record>, y: Record)
    requires SameLogs(p, q) && DenoteFields(x) == DenoteFields(y)
    ensures SameLogs(p + [x], q + [y])
  {
  }

  // Two accepted records with one hash agree in every field.
  lemma HashBindsRecord(sha: Digest, a: Record, m: nat, p: string, b: Record, n: nat, q: string)
    requires Proper(sha) && UniqueKeysInFields(a) && UniqueKeysInFields(b)
    requires Links(sha, a, m, p) && Links(sha, b, n, q) && ClaimedHash(a) == ClaimedHash(b)
    ensures DenoteFields(a) == DenoteFields(b) && m == n && p == q
  {
    RemoveDenotes(a, Key(EventHash));
    RemoveDenotes(b, Key(EventHash));
    FingerprintBinds(sha, Remove(a, Key(EventHash)), Remove(b, Key(EventHash)));
    SameFieldAndRest(a, b, Key(EventHash));
    GetDenotes(a, Key(Sequence));
    GetDenotes(b, Key(Sequence));
    GetDenotes(a, Key(Previous));
    GetDenotes(b, Key(Previous));
  }

  ghost predicate SameLogs(a: seq<Record>, b: seq<Record>) {
    |a| == |b| && forall i :: 0 <= i < |a| ==> DenoteFields(a[i]) == DenoteFields(b[i])
  }

  // With a collision-free digest, two valid logs with the same last hash are the same log, record
  // by record; even their lengths need not be compared.
  lemma {:induction false} LastHashBindsTheLog(sha: Digest, a: seq<Record>, b: seq<Record>)
    requires Proper(sha) && Chained(sha, a) && Chained(sha, b)
    requires PreviousHash(sha, a) == PreviousHash(sha, b)
    ensures SameLogs(a, b)
    decreases |a|
  {
    if a != [] && b != [] {
      var p, q := a[..|a| - 1], b[..|b| - 1];
      var x, y := a[|a| - 1], b[|b| - 1];
      HashBindsRecord(sha, x, |a|, PreviousHash(sha, p), y, |b|, PreviousHash(sha, q));
      LastHashBindsTheLog(sha, p, q);
      SameLogsExtend(p, x, q, y);
      assert a == p + [x] && b == q + [y];
    }
  }

  // ---------- The log file ----------

  class AppendOnlyMigrationAudit {
    const sha: Digest
    var records: seq<Record>

    // Every line of the file is a dictionary; whether they form a chain is for `append` to find out.
    ghost predicate Valid()
      reads this
    {
      CollisionFree(sha) && forall r :: r in records ==> UniqueKeysInFields(r)
    }

    constructor (sha: Digest)
      requires CollisionFree(sha)
      ensures Valid() && this.sha == sha && records == []
    {
      this.sha := sha;
      records := [];
    }

    // Refuses to touch a log that is not a chain.  The log is a chain afterwards if and only if the
    // event brought no hash of its own.
    method Append(event: Fields, now: string) returns (record: Option<Record>)
      requires Valid() && UniqueKeysInFields(event)
      modifies this
      ensures Valid()
      ensures record.Some? <==> Chained(sha, old(records))
      ensures record.None? ==> records == old(records)
      ensures record.Some? ==> records == old(records) + [record.value]
      ensures record.Some? ==> (Chained(sha, records) <==> Get(event, Key(EventHash)) == None)
      ensures record.Some? ==> forall k :: !IsChainKey(k) ==> Get(record.value, k) == Get(event, k)
    {
      var valid := Validate(sha, records);
      if !valid {
        return None;
      }
      AppendedIsAccepted(sha, records, event, now);
      NewRecordLinks(sha, records, event, now);
      forall k | !IsChainKey(k) ensures Get(NewRecord(sha, records, event, now), k) == Get(event, k) {
        NewRecordKeepsTheEvent(sha, records, event, now, k);
      }
      record := Some(NewRecord(sha, records, event, now));
      records := records + [record.value];
    }
  }
}
