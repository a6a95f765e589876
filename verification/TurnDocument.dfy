/**
 * The document that a completed turn leaves in memory: its texts are shortened until their JSON
 * form, with every escape, fits the limit.
 */
module TurnDocument {
  import opened CanonicalJson

  const MAX_TURN_CHARS := 12000

  function Message(role: string, content: string): Json {
    Obj(Field("role", Str(role), Field("content", Str(content), NoField)))
  }

  function Messages(user: string, assistant: string): Items {
    Item(Message("user", user), if assistant == "" then NoItem else Item(Message("assistant", assistant), NoItem))
  }

  function Document(user: string, assistant: string): Json {
    Obj(Field("schema", Str("daedalus.completed-turn.v1"),
        Field("status", Str("completed"),
        Field("messages", Arr(Messages(user, assistant)), NoField))))
  }

  function Serialize(user: string, assistant: string): string { Text(Document(user, assistant)) }

  // ---------- What the document says ----------

  function Turn(role: string, content: string): Value {
    ObjValue(map["role" := StrValue(role), "content" := StrValue(content)])
  }

  /** The person's text stands under the user's role, and a nonempty answer after it under the assistant's. */
  lemma DocumentsHoldTheTexts(user: string, assistant: string)
    ensures var d := Denote(Document(user, assistant));
            && d.ObjValue? && "messages" in d.fields
            && d.fields["messages"] ==
               ArrValue([Turn("user", user)] + if assistant == "" then [] else [Turn("assistant", assistant)])
  {
    MessageDenotes("user", user);
    MessageDenotes("assistant", assistant);
    var messages := Messages(user, assistant);
    assert messages.tail == if assistant == "" then NoItem else Item(Message("assistant", assistant), NoItem);
    assert DenoteItems(messages) == [Denote(messages.head)] + DenoteItems(messages.tail);
    var rest := Field("messages", Arr(messages), NoField);
    assert DenoteFields(rest)["messages"] == ArrValue(DenoteItems(messages));
    var status := Field("status", Str("completed"), rest);
    assert DenoteFields(status) == DenoteFields(rest)["status" := Denote(Str("completed"))];
    assert Denote(Document(user, assistant)) == ObjValue(DenoteFields(Document(user, assistant).fields));
    assert Document(user, assistant).fields.rest == status && Document(user, assistant).fields.key == "schema";
  }

  lemma MessageDenotes(role: string, content: string)
    ensures Denote(Message(role, content)) == Turn(role, content)
  {
    var fields := Field("role", Str(role), Field("content", Str(content), NoField));
    assert DenoteFields(fields.rest) == DenoteFields(NoField)["content" := Denote(Str(content))];
    assert DenoteFields(fields) == DenoteFields(fields.rest)["role" := Denote(Str(role))];
    assert Denote(Message(role, content)) == ObjValue(DenoteFields(fields));
  }

  // ---------- How long the parts become ----------

  lemma {:induction false} EscapeOfConcat(s: string, t: string)
    ensures Escape(s + t) == Escape(s) + Escape(t)
    decreases |s|
  {
    if s == "" {
      assert s + t == t;
    } else {
      assert (s + t)[1..] == s[1..] + t;
      EscapeOfConcat(s[1..], t);
    }
  }

  lemma {:induction false} EscapeGrows(s: string)
    ensures |s| <= |Escape(s)| <= 6 * |s|
    decreases |s|
  {
    if s != "" {
      EscapeGrows(s[1..]);
    }
  }

  lemma TwoFields(a: string, v: Json, b: string, w: Json)
    ensures |Text(Obj(Field(a, v, Field(b, w, NoField))))| == |Quote(a)| + |Text(v)| + |Quote(b)| + |Text(w)| + 5
  {
    var last := Field(b, w, NoField);
    assert FieldsText(last) == Quote(b) + ":" + Text(w) + "";
    assert FieldsText(Field(a, v, last)) == Quote(a) + ":" + Text(v) + ("," + FieldsText(last));
  }

  lemma MessageLength(role: string, content: string)
    ensures |Text(Message(role, content))| == |Quote("role")| + |Quote(role)| + |Quote("content")| + |Escape(content)| + 7
  {
    TwoFields("role", Str(role), "content", Str(content));
  }

  lemma ThreeFields(a: string, v: Json, b: string, w: Json, c: string, x: Json)
    ensures |Text(Obj(Field(a, v, Field(b, w, Field(c, x, NoField)))))| ==
            |Quote(a)| + |Text(v)| + |Quote(b)| + |Text(w)| + |Quote(c)| + |Text(x)| + 7
  {
    var rest := Field(b, w, Field(c, x, NoField));
    TwoFields(b, w, c, x);
    assert Text(Obj(rest)) == "{" + FieldsText(rest) + "}";
    assert FieldsText(Field(a, v, rest)) == Quote(a) + ":" + Text(v) + ("," + FieldsText(rest));
  }

  // What the document takes beside the texts.
  ghost function Frame(): nat {
    |Quote("schema")| + |Quote("daedalus.completed-turn.v1")| + |Quote("status")| + |Quote("completed")| + |Quote("messages")|
    + |Quote("role")| + |Quote("user")| + |Quote("content")| + 16
  }

  ghost function AssistantFrame(): nat { |Quote("role")| + |Quote("assistant")| + |Quote("content")| + 8 }

  lemma MessagesLength(user: string, assistant: string)
    ensures |Text(Arr(Messages(user, assistant)))| ==
            |Quote("role")| + |Quote("user")| + |Quote("content")| + |Escape(user)| + 9
            + if assistant == "" then 0 else AssistantFrame() + |Escape(assistant)|
  {
    MessageLength("user", user);
    MessageLength("assistant", assistant);
    var one := Item(Message("assistant", assistant), NoItem);
    assert ItemsText(one) == Text(Message("assistant", assistant)) + "";
    assert assistant != "" ==> ItemsText(Messages(user, assistant)) == Text(Message("user", user)) + ("," + ItemsText(one));
    assert assistant == "" ==> ItemsText(Messages(user, assistant)) == Text(Message("user", user)) + "";
  }

  lemma SerializedLength(user: string, assistant: string)
    ensures |Serialize(user, assistant)| ==
            Frame() + |Escape(user)| + if assistant == "" then 0 else AssistantFrame() + |Escape(assistant)|
  {
    MessagesLength(user, assistant);
    ThreeFields("schema", Str("daedalus.completed-turn.v1"), "status", Str("completed"), "messages", Arr(Messages(user, assistant)));
  }

  lemma FrameIsSmall()
    ensures Frame() <= 1000
  {
    EscapeGrows("schema");
    EscapeGrows("daedalus.completed-turn.v1");
    EscapeGrows("status");
    EscapeGrows("completed");
    EscapeGrows("messages");
    EscapeGrows("role");
    EscapeGrows("user");
    EscapeGrows("content");
  }

  // ---------- Shortening ----------

  function Max(a: int, b: int): int { if a >= b then a else b }

  function Overflow(user: string, assistant: string): int { |Serialize(user, assistant)| - MAX_TURN_CHARS }

  // The texts after one shortening: first the assistant's, and only then the user's.
  function Shortened(user: string, assistant: string): (string, string)
    requires user != "" && Overflow(user, assistant) > 0
  {
    var overflow := Overflow(user, assistant);
    if assistant != "" then (user, assistant[..Max(0, |assistant| - overflow - 1)])
    else (user[..Max(1, |user| - overflow - 1)], "")
  }

  // Cutting more characters than the overflow removes the overflow, whatever they escape to.
  lemma CutRemoves(s: string, k: nat)
    requires k <= |s|
    ensures |Escape(s[..k])| + |s| - k <= |Escape(s)|
  {
    assert s == s[..k] + s[k..];
    EscapeOfConcat(s[..k], s[k..]);
    EscapeGrows(s[k..]);
  }

  lemma CuttingTheAssistant(user: string, assistant: string, k: nat)
    requires assistant != "" && Overflow(user, assistant) > 0 && k == Max(0, |assistant| - Overflow(user, assistant) - 1)
    ensures k > 0 ==> Overflow(user, assistant[..k]) <= 0
  {
    SerializedLength(user, assistant);
    SerializedLength(user, assistant[..k]);
    CutRemoves(assistant, k);
  }

  lemma LengthsDiffer(u: string, v: string)
    ensures |Serialize(u, "")| - |Escape(u)| == |Serialize(v, "")| - |Escape(v)|
  {
    SerializedLength(u, "");
    SerializedLength(v, "");
  }

  lemma OneCharacterFits(u: string)
    requires |u| == 1
    ensures Overflow(u, "") <= 0
  {
    SerializedLength(u, "");
    FrameIsSmall();
    EscapeGrows(u);
  }

  lemma CuttingTheUser(user: string, k: nat)
    requires user != "" && Overflow(user, "") > 0 && k == Max(1, |user| - Overflow(user, "") - 1)
    ensures k <= |user| && Overflow(user[..k], "") <= 0
  {
    assert k <= |user|;
    if k == 1 {
      OneCharacterFits(user[..1]);
    } else {
      LengthsDiffer(user, user[..k]);
      CutRemoves(user, k);
    }
  }

  /** One shortening suffices, or leaves no assistant text; one more suffices then. */
  lemma ShorteningSuffices(user: string, assistant: string)
    requires user != "" && Overflow(user, assistant) > 0
    ensures var (u, a) := Shortened(user, assistant);
            && u != "" && u <= user && a <= assistant
            && (Overflow(u, a) <= 0 || (a == "" && assistant != "" && u == user))
  {
    if assistant != "" {
      CuttingTheAssistant(user, assistant, Max(0, |assistant| - Overflow(user, assistant) - 1));
    } else {
      CuttingTheUser(user, Max(1, |user| - Overflow(user, "") - 1));
    }
  }

  // The texts that the document finally holds.
  function Final(user: string, assistant: string): (string, string)
    requires user != ""
  {
    if Overflow(user, assistant) <= 0 then (user, assistant)
    else
      var (u, a) := Shortened(user, assistant);
      ShorteningSuffices(user, assistant);
      if Overflow(u, a) <= 0 then (u, a) else Shortened(u, a)
  }

  /** The final texts fit; the user's is a nonempty prefix, shortened only once the assistant's is gone. */
  lemma FinalTextsFit(user: string, assistant: string)
    requires user != ""
    ensures var (u, a) := Final(user, assistant);
            && |Serialize(u, a)| <= MAX_TURN_CHARS
            && u != "" && u <= user && a <= assistant
            && (u != user ==> a == "" && |Serialize(user, "")| > MAX_TURN_CHARS)
            && ((u, a) == (user, assistant) <==> |Serialize(user, assistant)| <= MAX_TURN_CHARS)
  {
    if Overflow(user, assistant) > 0 {
      var (u, a) := Shortened(user, assistant);
      ShorteningSuffices(user, assistant);
      if Overflow(u, a) > 0 {
        ShorteningSuffices(u, a);
      }
    }
  }

  /** Each text loses at most one character more than its document is too long, and none if it fits. */
  lemma CutsAreSmall(user: string, assistant: string)
    requires user != ""
    ensures var (u, a) := Final(user, assistant);
            && |assistant| - |a| <= Max(0, |Serialize(user, assistant)| - 12000 + 1)
            && |user| - |u| <= Max(0, |Serialize(user, "")| - 12000 + 1)
            && (|Serialize(user, assistant)| <= 12000 ==> (u, a) == (user, assistant))
            && (|Serialize(user, "")| <= 12000 ==> u == user)
  {
    if Overflow(user, assistant) > 0 {
      ShorteningSuffices(user, assistant);
    }
  }

  datatype Result = Completed(document: string) | Empty

  /** Shortens the sanitized texts until their document fits; two rounds always do. */
  method CompletedTurnDocument(user: string, assistant: string) returns (r: Result, ghost rounds: nat)
    ensures r.Empty? <==> user == ""
    ensures r.Completed? ==> |r.document| <= MAX_TURN_CHARS
    ensures r.Completed? ==> r.document == Serialize(Final(user, assistant).0, Final(user, assistant).1)
    ensures rounds <= 2
  {
    rounds := 0;
    if user == "" {
      return Empty, 0;
    }
    var u, a := user, assistant;
    var document := Serialize(u, a);
    while |document| > MAX_TURN_CHARS
      invariant u != "" && document == Serialize(u, a)
      invariant rounds == 0 ==> (u, a) == (user, assistant)
      invariant rounds == 1 ==> Overflow(user, assistant) > 0 && (u, a) == Shortened(user, assistant)
      invariant rounds >= 1 && |document| > MAX_TURN_CHARS ==> rounds == 1 && a == ""
      invariant |document| <= MAX_TURN_CHARS ==> (u, a) == Final(user, assistant)
      invariant rounds <= 2
      decreases 2 - rounds
    {
      ShorteningSuffices(u, a);
      var overflow := |document| - MAX_TURN_CHARS;
      if a != "" {
        a := a[..Max(0, |a| - overflow - 1)];
      } else {
        u := u[..Max(1, |u| - overflow - 1)];
      }
      document := Serialize(u, a);
      rounds := rounds + 1;
    }
    r := Completed(document);
  }
}
