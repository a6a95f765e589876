/**
 * The canonical JSON text that binds approval arguments and audit records:
 * `json.dumps(value, sort_keys=True, separators=(",", ":"), ensure_ascii=False)`.
 *
 * A dictionary is a list of fields in insertion order; `Denote` forgets that order, so two values
 * are equal up to key order, at every depth, exactly if they denote the same `Value`.
 */
module CanonicalJson {
  datatype Json =
    | Null
    | Bool(b: bool)
    | Int(n: int)
    | Str(s: string)
    | Arr(items: Items)
    | Obj(fields: Fields)

  datatype Items = NoItem | Item(head: Json, tail: Items)

  datatype Fields = NoField | Field(key: string, value: Json, rest: Fields)

  datatype Value =
    | NullValue
    | BoolValue(b: bool)
    | IntValue(n: int)
    | StrValue(s: string)
    | ArrValue(items: seq<Value>)
    | ObjValue(fields: map<string, Value>)

  function Denote(v: Json): Value {
    match v
    case Null => NullValue
    case Bool(b) => BoolValue(b)
    case Int(n) => IntValue(n)
    case Str(s) => StrValue(s)
    case Arr(items) => ArrValue(DenoteItems(items))
    case Obj(fields) => ObjValue(DenoteFields(fields))
  }

  function DenoteItems(items: Items): seq<Value> {
    match items
    case NoItem => []
    case Item(head, tail) => [Denote(head)] + DenoteItems(tail)
  }

  function DenoteFields(fields: Fields): map<string, Value> {
    match fields
    case NoField => map[]
    case Field(key, value, rest) => DenoteFields(rest)[key := Denote(value)]
  }

  function Keys(fields: Fields): (r: set<string>)
    ensures r == DenoteFields(fields).Keys
  {
    match fields
    case NoField => {}
    case Field(key, _, rest) => Keys(rest) + {key}
  }

  // A dictionary has each key once.
  ghost predicate UniqueKeys(v: Json) {
    match v
    case Arr(items) => UniqueKeysInItems(items)
    case Obj(fields) => UniqueKeysInFields(fields)
    case _ => true
  }

  ghost predicate UniqueKeysInItems(items: Items) {
    items.Item? ==> UniqueKeys(items.head) && UniqueKeysInItems(items.tail)
  }

  ghost predicate UniqueKeysInFields(fields: Fields) {
    fields.Field? ==> fields.key !in Keys(fields.rest) && UniqueKeys(fields.value) && UniqueKeysInFields(fields.rest)
  }

  // ---------- Text ----------

  function Digit(d: nat): char
    requires d < 16
  {
    "0123456789abcdef"[d]
  }

  predicate IsDigit(c: char) { '0' <= c <= '9' }

  function Decimal(n: nat): (r: string)
    ensures r != "" && forall i :: 0 <= i < |r| ==> IsDigit(r[i])
  {
    if n < 10 then [Digit(n)] else Decimal(n / 10) + [Digit(n % 10)]
  }

  function EscapeChar(c: char): (r: string)
    ensures 1 <= |r| <= 6
  {
    if c == '"' then "\\\""
    else if c == '\\' then "\\\\"
    else if c == '\n' then "\\n"
    else if c == '\r' then "\\r"
    else if c == '\t' then "\\t"
    else if c as int == 12 then "\\f"
    else if c as int == 8 then "\\b"
    else if c as int < 32 then "\\u00" + [Digit(c as int / 16), Digit(c as int % 16)]
    else [c]
  }

  function Escape(s: string): string {
    if s == "" then "" else EscapeChar(s[0]) + Escape(s[1..])
  }

  function Quote(s: string): string { "\"" + Escape(s) + "\"" }

  // Plain serialization, in the order of the fields.
  function Text(v: Json): (r: string)
    ensures r != ""
  {
    match v
    case Null => "null"
    case Bool(b) => if b then "true" else "false"
    case Int(n) => if n < 0 then ['-'] + Decimal(-n) else Decimal(n)
    case Str(s) => Quote(s)
    case Arr(items) => "[" + ItemsText(items) + "]"
    case Obj(fields) => "{" + FieldsText(fields) + "}"
  }

  function ItemsText(items: Items): string {
    match items
    case NoItem => ""
    case Item(head, tail) => Text(head) + if tail.NoItem? then "" else "," + ItemsText(tail)
  }

  function FieldsText(fields: Fields): string {
    match fields
    case NoField => ""
    case Field(key, value, rest) =>
      Quote(key) + ":" + Text(value) + if rest.NoField? then "" else "," + FieldsText(rest)
  }

  // ---------- Sorting by key ----------

  // Code point order, as Python compares strings.
  predicate Less(a: string, b: string) {
    if b == "" then false
    else if a == "" then true
    else if a[0] == b[0] then Less(a[1..], b[1..])
    else a[0] < b[0]
  }

  lemma {:induction false} LessIsTotal(a: string, b: string)
    ensures Less(a, b) || Less(b, a) || a == b
    ensures !(Less(a, b) && Less(b, a)) && (Less(a, b) ==> a != b)
  {
    if a != "" && b != "" && a[0] == b[0] {
      LessIsTotal(a[1..], b[1..]);
      assert a == [a[0]] + a[1..] && b == [b[0]] + b[1..];
    }
  }

  /** Keys are ordered by the first character in which they differ, and a prefix comes first. */
  lemma {:induction false} LessMeansFirstDifference(a: string, b: string)
    ensures Less(a, b) <==> exists k :: DiffersFirst(a, b, k)
    decreases |a|
  {
    if a != [] && b != [] && a[0] == b[0] {
      LessMeansFirstDifference(a[1..], b[1..]);
      if k :| DiffersFirst(a[1..], b[1..], k) {
        assert a[..k + 1] == [a[0]] + a[1..][..k] && b[..k + 1] == [b[0]] + b[1..][..k];
        assert DiffersFirst(a, b, k + 1);
      }
      if k :| DiffersFirst(a, b, k) {
        assert k > 0 ==> a[1..][..k - 1] == a[..k][1..] && b[1..][..k - 1] == b[..k][1..];
        assert DiffersFirst(a[1..], b[1..], k - 1);
      }
    } else {
      assert DiffersFirst(a, b, 0) <==> Less(a, b);
      assert forall k :: DiffersFirst(a, b, k) && k > 0 ==> a[..k][0] == a[0] && b[..k][0] == b[0];
    }
  }

  ghost predicate DiffersFirst(a: string, b: string, k: int) {
    0 <= k <= |a| && k < |b| && a[..k] == b[..k] && (k == |a| || a[k] < b[k])
  }

  lemma {:induction false} LessIsTransitive(a: string, b: string, c: string)
    requires Less(a, b) && Less(b, c)
    ensures Less(a, c)
  {
    if a != "" && a[0] == b[0] == c[0] {
      LessIsTransitive(a[1..], b[1..], c[1..]);
    }
  }

  function Insert(key: string, value: Json, fields: Fields): Fields {
    match fields
    case NoField => Field(key, value, NoField)
    case Field(k, v, rest) =>
      if Less(k, key) then Field(k, v, Insert(key, value, rest)) else Field(key, value, fields)
  }

  function Sorted(v: Json): Json {
    match v
    case Arr(items) => Arr(SortedItems(items))
    case Obj(fields) => Obj(SortedFields(fields))
    case _ => v
  }

  function SortedItems(items: Items): Items {
    match items
    case NoItem => NoItem
    case Item(head, tail) => Item(Sorted(head), SortedItems(tail))
  }

  function SortedFields(fields: Fields): Fields {
    match fields
    case NoField => NoField
    case Field(key, value, rest) => Insert(key, Sorted(value), SortedFields(rest))
  }

  function Canonical(v: Json): string { Text(Sorted(v)) }

  // ---------- The text determines the value ----------

  predicate Stops(s: string) { s == "" || s[0] in ",]}" }

  function DecimalValue(s: string): int {
    if s == "" then 0 else 10 * DecimalValue(s[..|s| - 1]) + (s[|s| - 1] as int - '0' as int)
  }

  lemma {:induction false} DecimalValueOf(n: nat)
    ensures DecimalValue(Decimal(n)) == n
  {
    if n < 10 {
      assert Decimal(n)[..0] == "";
    } else {
      DecimalValueOf(n / 10);
      assert Decimal(n)[..|Decimal(n)| - 1] == Decimal(n / 10);
    }
  }

  lemma SplitEqual(a: string, s: string, b: string, t: string)
    requires a + s == b + t && |a| == |b|
    ensures a == b && s == t
  {
    assert a == (a + s)[..|a|] && b == (b + t)[..|b|];
    assert s == (a + s)[|a|..] && t == (b + t)[|b|..];
  }

  lemma DigitsReachTheStop(a: string, s: string, b: string, t: string)
    requires a + s == b + t && Stops(s)
    requires forall i :: 0 <= i < |b| ==> IsDigit(b[i])
    ensures |b| <= |a|
  {
    forall i | 0 <= i < |b| ensures IsDigit((a + s)[i]) {
      assert (b + t)[i] == b[i];
    }
    assert s != "" ==> (a + s)[|a|] == s[0];
  }

  lemma DecimalSplits(m: nat, s: string, n: nat, t: string)
    requires Decimal(m) + s == Decimal(n) + t && Stops(s) && Stops(t)
    ensures m == n && s == t
  {
    var a, b := Decimal(m), Decimal(n);
    DigitsReachTheStop(a, s, b, t);
    DigitsReachTheStop(b, t, a, s);
    SplitEqual(a, s, b, t);
    DecimalValueOf(m);
    DecimalValueOf(n);
  }

  lemma EscapeCharSplits(c: char, s: string, d: char, t: string)
    requires EscapeChar(c) + s == EscapeChar(d) + t
    ensures c == d && s == t
  {
    var a, b := EscapeChar(c), EscapeChar(d);
    assert (a + s)[0] == a[0] && (b + t)[0] == b[0];
    if |a| > 1 && |b| > 1 {
      assert (a + s)[1] == a[1] && (b + t)[1] == b[1];
      if |a| == 6 && |b| == 6 {
        assert (a + s)[4] == a[4] && (b + t)[4] == b[4];
        assert (a + s)[5] == a[5] && (b + t)[5] == b[5];
      }
    }
    SplitEqual(a, s, b, t);
  }

  lemma Regroup(a: string, b: string, s: string)
    ensures (a + b) + s == a + (b + s)
  {
  }

  lemma AfterFirst(c: char, x: string, y: string)
    requires [c] + x == [c] + y
    ensures x == y
  {
    SplitEqual([c], x, [c], y);
  }

  lemma EscapeStart(a: string, s: string)
    requires s != ""
    ensures Escape(a) + s != ""
    ensures if a == "" then Escape(a) + s == s else (Escape(a) + s)[0] == EscapeChar(a[0])[0] != '"'
  {
  }

  // Inside quotes, what follows `s` starts with the closing quote.
  lemma {:induction false} EscapeSplits(a: string, s: string, b: string, t: string)
    requires Escape(a) + s == Escape(b) + t
    requires s != "" && t != "" && s[0] == t[0] == '"'
    ensures a == b && s == t
    decreases |a|
  {
    EscapeStart(a, s);
    EscapeStart(b, t);
    if a != "" && b != "" {
      Regroup(EscapeChar(a[0]), Escape(a[1..]), s);
      Regroup(EscapeChar(b[0]), Escape(b[1..]), t);
      EscapeCharSplits(a[0], Escape(a[1..]) + s, b[0], Escape(b[1..]) + t);
      EscapeSplits(a[1..], s, b[1..], t);
      assert a == [a[0]] + a[1..] && b == [b[0]] + b[1..];
    }
  }

  lemma QuoteSplits(a: string, s: string, b: string, t: string)
    requires Quote(a) + s == Quote(b) + t
    ensures a == b && s == t
  {
    QuoteParts(a, s);
    QuoteParts(b, t);
    AfterFirst('"', Escape(a) + (['"'] + s), Escape(b) + (['"'] + t));
    EscapeSplits(a, ['"'] + s, b, ['"'] + t);
    AfterFirst('"', s, t);
  }

  lemma QuoteParts(a: string, s: string)
    ensures Quote(a) + s == ['"'] + (Escape(a) + (['"'] + s))
  {
  }

  // The first character tells the kinds of values apart and never ends a value.
  predicate StartsLike(c: char, v: Json) {
    match v
    case Null => c == 'n'
    case Bool(b) => c == if b then 't' else 'f'
    case Int(n) => if n < 0 then c == '-' else IsDigit(c)
    case Str(_) => c == '"'
    case Arr(_) => c == '['
    case Obj(_) => c == '{'
  }

  lemma TextStart(v: Json, s: string)
    ensures Text(v) + s != "" && StartsLike((Text(v) + s)[0], v)
  {
  }

  lemma NegativeSplits(m: nat, s: string, n: nat, t: string)
    requires (['-'] + Decimal(m)) + s == (['-'] + Decimal(n)) + t && Stops(s) && Stops(t)
    ensures m == n && s == t
  {
    Regroup(['-'], Decimal(m), s);
    Regroup(['-'], Decimal(n), t);
    AfterFirst('-', Decimal(m) + s, Decimal(n) + t);
    DecimalSplits(m, s, n, t);
  }

  lemma IntSplits(m: int, s: string, n: int, t: string)
    requires Text(Int(m)) + s == Text(Int(n)) + t && Stops(s) && Stops(t)
    ensures m == n && s == t
  {
    TextStart(Int(m), s);
    TextStart(Int(n), t);
    if m < 0 {
      NegativeSplits(-m, s, -n, t);
    } else {
      DecimalSplits(m, s, n, t);
    }
  }

  lemma Bracketed(open: char, body: string, close: char, s: string)
    ensures ([open] + body + [close]) + s == [open] + (body + ([close] + s))
  {
  }

  lemma {:induction false} TextSplits(v: Json, s: string, w: Json, t: string)
    requires Text(v) + s == Text(w) + t && Stops(s) && Stops(t)
    ensures v == w && s == t
    decreases v, 1
  {
    TextStart(v, s);
    TextStart(w, t);
    match v
    case Null => SplitEqual(Text(v), s, Text(w), t);
    case Bool(b) => SplitEqual(Text(v), s, Text(w), t);
    case Int(m) => IntSplits(m, s, w.n, t);
    case Str(x) => QuoteSplits(x, s, w.s, t);
    case Arr(items) =>
      Bracketed('[', ItemsText(items), ']', s);
      Bracketed('[', ItemsText(w.items), ']', t);
      AfterFirst('[', ItemsText(items) + ([']'] + s), ItemsText(w.items) + ([']'] + t));
      ItemsSplit(items, [']'] + s, w.items, [']'] + t);
      AfterFirst(']', s, t);
    case Obj(fields) =>
      Bracketed('{', FieldsText(fields), '}', s);
      Bracketed('{', FieldsText(w.fields), '}', t);
      AfterFirst('{', FieldsText(fields) + (['}'] + s), FieldsText(w.fields) + (['}'] + t));
      FieldsSplit(fields, ['}'] + s, w.fields, ['}'] + t);
      AfterFirst('}', s, t);
  }

  // What follows one element: a comma and the others, or what follows them all.
  function MoreItems(tail: Items, s: string): string {
    if tail.NoItem? then s else [','] + (ItemsText(tail) + s)
  }

  lemma ItemsParts(a: Items, s: string)
    requires a.Item?
    ensures ItemsText(a) + s == Text(a.head) + MoreItems(a.tail, s)
  {
    if a.tail.Item? {
      assert ItemsText(a) == Text(a.head) + ([','] + ItemsText(a.tail));
      Regroup(Text(a.head), [','] + ItemsText(a.tail), s);
      Regroup([','], ItemsText(a.tail), s);
    } else {
      assert ItemsText(a) == Text(a.head);
    }
  }

  lemma {:induction false} ItemsSplit(a: Items, s: string, b: Items, t: string)
    requires ItemsText(a) + s == ItemsText(b) + t
    requires s != "" && t != "" && s[0] == t[0] == ']'
    ensures a == b && s == t
    decreases a, 0
  {
    if a.Item? { ItemsParts(a, s); TextStart(a.head, MoreItems(a.tail, s)); }
    if b.Item? { ItemsParts(b, t); TextStart(b.head, MoreItems(b.tail, t)); }
    assert a.NoItem? ==> ItemsText(a) + s == s;
    assert b.NoItem? ==> ItemsText(b) + t == t;
    if a.Item? && b.Item? {
      TextSplits(a.head, MoreItems(a.tail, s), b.head, MoreItems(b.tail, t));
      if a.tail.Item? && b.tail.Item? {
        AfterFirst(',', ItemsText(a.tail) + s, ItemsText(b.tail) + t);
        ItemsSplit(a.tail, s, b.tail, t);
      }
    }
  }

  function MoreFields(rest: Fields, s: string): string {
    if rest.NoField? then s else [','] + (FieldsText(rest) + s)
  }

  lemma RegroupFour(a: string, b: string, c: string, d: string, s: string)
    ensures (a + b + c + d) + s == a + (b + (c + (d + s)))
  {
    Regroup(a + b + c, d, s);
    Regroup(a + b, c, d + s);
    Regroup(a, b, c + (d + s));
  }

  lemma MoreFieldsParts(rest: Fields, s: string)
    ensures (if rest.NoField? then "" else "," + FieldsText(rest)) + s == MoreFields(rest, s)
  {
    if rest.Field? {
      Regroup(",", FieldsText(rest), s);
    }
  }

  lemma FieldsParts(a: Fields, s: string)
    requires a.Field?
    ensures FieldsText(a) + s == Quote(a.key) + ([':'] + (Text(a.value) + MoreFields(a.rest, s)))
  {
    var more := if a.rest.NoField? then "" else "," + FieldsText(a.rest);
    RegroupFour(Quote(a.key), ":", Text(a.value), more, s);
    MoreFieldsParts(a.rest, s);
  }

  lemma {:induction false} FieldsSplit(a: Fields, s: string, b: Fields, t: string)
    requires FieldsText(a) + s == FieldsText(b) + t
    requires s != "" && t != "" && s[0] == t[0] == '}'
    ensures a == b && s == t
    decreases a, 0
  {
    if a.Field? { FieldsParts(a, s); }
    if b.Field? { FieldsParts(b, t); }
    assert a.NoField? ==> FieldsText(a) + s == s;
    assert b.NoField? ==> FieldsText(b) + t == t;
    assert a.Field? ==> (FieldsText(a) + s)[0] == '"';
    assert b.Field? ==> (FieldsText(b) + t)[0] == '"';
    if a.Field? && b.Field? {
      var x, y := Text(a.value) + MoreFields(a.rest, s), Text(b.value) + MoreFields(b.rest, t);
      QuoteSplits(a.key, [':'] + x, b.key, [':'] + y);
      AfterFirst(':', x, y);
      TextSplits(a.value, MoreFields(a.rest, s), b.value, MoreFields(b.rest, t));
      if a.rest.Field? && b.rest.Field? {
        AfterFirst(',', FieldsText(a.rest) + s, FieldsText(b.rest) + t);
        FieldsSplit(a.rest, s, b.rest, t);
      }
    }
  }

  // Serialization loses nothing.
  lemma TextIsInjective(v: Json, w: Json)
    requires Text(v) == Text(w)
    ensures v == w
  {
    assert Text(v) + "" == Text(v) && Text(w) + "" == Text(w);
    TextSplits(v, "", w, "");
  }

  // ---------- Sorting forgets exactly the key order ----------

  ghost predicate Normal(v: Json) {
    match v
    case Arr(items) => NormalItems(items)
    case Obj(fields) => NormalFields(fields)
    case _ => true
  }

  ghost predicate NormalItems(items: Items) {
    items.Item? ==> Normal(items.head) && NormalItems(items.tail)
  }

  ghost predicate NormalFields(fields: Fields) {
    fields.Field? ==> Normal(fields.value) && NormalFields(fields.rest)
                      && forall k :: k in Keys(fields.rest) ==> Less(fields.key, k)
  }

  lemma {:induction false} InsertDenotes(key: string, value: Json, fields: Fields)
    requires key !in Keys(fields)
    ensures DenoteFields(Insert(key, value, fields)) == DenoteFields(fields)[key := Denote(value)]
  {
    if fields.Field? && Less(fields.key, key) {
      InsertDenotes(key, value, fields.rest);
    }
  }

  lemma {:induction false} InsertSorts(key: string, value: Json, fields: Fields)
    requires NormalFields(fields) && Normal(value) && key !in Keys(fields)
    ensures NormalFields(Insert(key, value, fields))
  {
    match fields
    case NoField =>
    case Field(k, v, rest) =>
      LessIsTotal(k, key);
      if Less(k, key) {
        InsertSorts(key, value, rest);
        InsertDenotes(key, value, rest);
      } else {
        forall x | x in Keys(rest) ensures Less(key, x) {
          LessIsTransitive(key, k, x);
        }
      }
  }

  lemma {:induction false} SortedIsNormal(v: Json)
    requires UniqueKeys(v)
    ensures Normal(Sorted(v)) && Denote(Sorted(v)) == Denote(v)
  {
    match v
    case Arr(items) => SortedItemsAreNormal(items);
    case Obj(fields) => SortedFieldsAreNormal(fields);
    case _ =>
  }

  lemma {:induction false} SortedItemsAreNormal(items: Items)
    requires UniqueKeysInItems(items)
    ensures NormalItems(SortedItems(items)) && DenoteItems(SortedItems(items)) == DenoteItems(items)
  {
    if items.Item? {
      SortedIsNormal(items.head);
      SortedItemsAreNormal(items.tail);
    }
  }

  lemma {:induction false} SortedFieldsAreNormal(fields: Fields)
    requires UniqueKeysInFields(fields)
    ensures NormalFields(SortedFields(fields)) && DenoteFields(SortedFields(fields)) == DenoteFields(fields)
  {
    if fields.Field? {
      SortedIsNormal(fields.value);
      SortedFieldsAreNormal(fields.rest);
      InsertSorts(fields.key, Sorted(fields.value), SortedFields(fields.rest));
      InsertDenotes(fields.key, Sorted(fields.value), SortedFields(fields.rest));
    }
  }

  // There is one normal form per value.
  lemma {:induction false} NormalIsUnique(v: Json, w: Json)
    requires Normal(v) && Normal(w) && Denote(v) == Denote(w)
    ensures v == w
  {
    match v
    case Arr(items) => NormalItemsAreUnique(items, w.items);
    case Obj(fields) => NormalFieldsAreUnique(fields, w.fields);
    case _ =>
  }

  lemma {:induction false} NormalItemsAreUnique(a: Items, b: Items)
    requires NormalItems(a) && NormalItems(b) && DenoteItems(a) == DenoteItems(b)
    ensures a == b
  {
    if a.Item? && b.Item? {
      assert DenoteItems(a)[0] == Denote(a.head) && DenoteItems(b)[0] == Denote(b.head);
      assert DenoteItems(a)[1..] == DenoteItems(a.tail) && DenoteItems(b)[1..] == DenoteItems(b.tail);
      NormalIsUnique(a.head, b.head);
      NormalItemsAreUnique(a.tail, b.tail);
    }
  }

  lemma {:induction false} NormalFieldsAreUnique(a: Fields, b: Fields)
    requires NormalFields(a) && NormalFields(b) && DenoteFields(a) == DenoteFields(b)
    ensures a == b
  {
    assert b.Field? ==> b.key in DenoteFields(b);
    if a.Field? {
      assert a.key in DenoteFields(a) && a.key in Keys(b);
      assert b.key in DenoteFields(b) && b.key in Keys(a);
      LessIsTotal(a.key, b.key);
      assert a.key == b.key;
      assert DenoteFields(a)[a.key] == Denote(a.value) && DenoteFields(b)[a.key] == Denote(b.value);
      NormalIsUnique(a.value, b.value);
      LessIsTotal(a.key, a.key);
      assert DenoteFields(a) - {a.key} == DenoteFields(a.rest);
      assert DenoteFields(b) - {a.key} == DenoteFields(b.rest);
      NormalFieldsAreUnique(a.rest, b.rest);
    }
  }

  // Canonical text is a normal form: it is the same for two values exactly if they are equal up
  // to the order of object keys at every depth.
  lemma CanonicalTextIsANormalForm(v: Json, w: Json)
    requires UniqueKeys(v) && UniqueKeys(w)
    ensures Canonical(v) == Canonical(w) <==> Denote(v) == Denote(w)
  {
    SortedIsNormal(v);
    SortedIsNormal(w);
    if Canonical(v) == Canonical(w) {
      TextIsInjective(Sorted(v), Sorted(w));
    }
    if Denote(v) == Denote(w) {
      NormalIsUnique(Sorted(v), Sorted(w));
    }
  }

  // ---------- Dictionaries ----------

  function Remove(fields: Fields, key: string): Fields {
    match fields
    case NoField => NoField
    case Field(k, v, rest) => if k == key then rest else Field(k, v, Remove(rest, key))
  }

  lemma {:induction false} RemoveDenotes(fields: Fields, key: string)
    requires UniqueKeysInFields(fields)
    ensures UniqueKeysInFields(Remove(fields, key))
    ensures DenoteFields(Remove(fields, key)) == DenoteFields(fields) - {key}
  {
    if fields.Field? && fields.key != key {
      RemoveDenotes(fields.rest, key);
    }
  }
}
