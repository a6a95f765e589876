/**
 * The operator's approval policy for remote tools: what a group exposes, which of its tools are
 * approved in advance, and which group a configured endpoint belongs to.
 */
module ApprovalPolicy {
  import opened Wrappers
  import opened Texts

  datatype Result<T> = Ok(value: T) | Refused

  datatype Policy = ReadOnly | ApprovalRequired | AutoApprove

  // ---------- Names ----------

  predicate IsWord(c: char) { 'a' <= c <= 'z' || '0' <= c <= '9' }

  function LowerChar(c: char): char {
    if 'A' <= c <= 'Z' then (c as int + 32) as char else c
  }

  function Lower(s: string): (r: string)
    ensures |r| == |s| && forall i :: 0 <= i < |s| ==> r[i] == LowerChar(s[i])
  {
    seq(|s|, i requires 0 <= i < |s| => LowerChar(s[i]))
  }

  function Normal(s: string): string { Lower(Strip(s)) }

  predicate StartsWith(s: string, prefix: string) { |prefix| <= |s| && s[..|prefix|] == prefix }

  predicate OccursAt(s: string, f: string, i: int) { 0 <= i <= |s| - |f| && s[i..i + |f|] == f }

  predicate Contains(s: string, f: string) { exists i :: 0 <= i <= |s| && OccursAt(s, f, i) }

  // A maximal run of word characters.
  predicate TokenAt(s: string, t: string, i: int) {
    OccursAt(s, t, i) && (i > 0 ==> !IsWord(s[i - 1])) && (i + |t| < |s| ==> !IsWord(s[i + |t|]))
  }

  predicate HasToken(s: string, t: string) { exists i :: 0 <= i <= |s| && TokenAt(s, t, i) }

  // ---------- Mutation ----------

  const MutatingFragments := [
    "apply", "create", "delete", "deletecollection", "patch", "replace", "rollback", "rollout", "scale", "autoscale",
    "uninstall", "update", "upgrade", "cordon", "drain", "evict", "taint", "terminate", "destroy", "revoke", "restart",
    "annotate", "remove", "disable"]

  const MutatingTokens := [
    "exec", "set", "put", "post", "cp", "edit", "kill", "drop", "debug", "expose", "attach", "label", "write", "send",
    "move", "rename"]

  function Join(parts: seq<string>): string {
    if parts == [] then "" else if |parts| == 1 then parts[0] else parts[0] + " " + Join(parts[1..])
  }

  predicate LooksMutating(text: string) {
    || (exists f :: f in MutatingFragments && Contains(text, f))
    || (exists t :: t in MutatingTokens && HasToken(text, t))
  }

  // The tool name, then the texts that the arguments give as operation, command, action, method and verb.
  predicate IsMutating(tool: string, verbs: seq<string>, destructiveHint: Option<bool>) {
    destructiveHint == Some(true) || LooksMutating(Lower(Join([tool] + verbs)))
  }

  // ---------- Groups ----------

  datatype Group = Group(included: set<string>, excluded: set<string>, default: Policy, overrides: map<string, Policy>)

  predicate Exposed(g: Group, tool: string) {
    if g.included != {} then tool in g.included else tool !in g.excluded
  }

  function ForTool(g: Group, tool: string): Policy {
    if g.included != {} && tool !in g.included then ApprovalRequired
    else if g.included == {} && tool in g.excluded then ApprovalRequired
    else if tool in g.overrides then g.overrides[tool] else g.default
  }

  // A configured override: a raw tool name, and its policy where one is given.
  datatype Override = Override(tool: string, policy: Option<string>)

  datatype RawGroup = RawGroup(includes: seq<string>, excludes: seq<string>, approvalPolicy: string, overrides: seq<Override>)

  function PolicyNamed(s: string): Option<Policy> {
    if Normal(s) == "read_only" then Some(ReadOnly)
    else if Normal(s) == "approval_required" then Some(ApprovalRequired)
    else if Normal(s) == "auto_approve" then Some(AutoApprove)
    else None
  }

  predicate ToolNames(raw: seq<string>) { forall t :: t in raw ==> Strip(t) != "" }

  function NormalSet(raw: seq<string>): set<string> { set t | t in raw :: Normal(t) }

  // Whether an override may stand: its tool is exposed, and no mutation is declared read-only.
  predicate Legal(included: set<string>, excluded: set<string>, o: Override)
    requires o.policy.Some?
  {
    && PolicyNamed(o.policy.value).Some?
    && (if included != {} then Normal(o.tool) in included else Normal(o.tool) !in excluded)
    && (PolicyNamed(o.policy.value) == Some(ReadOnly) ==> !IsMutating(o.tool, [], None))
  }

  function Overrides(included: set<string>, excluded: set<string>, raw: seq<Override>): Result<map<string, Policy>> {
    if raw == [] then Ok(map[])
    else
      var last := raw[|raw| - 1];
      var before := Overrides(included, excluded, raw[..|raw| - 1]);
      if before.Refused? then Refused
      else if last.policy.None? then before
      else if !Legal(included, excluded, last) then Refused
      else Ok(before.value[Normal(last.tool) := PolicyNamed(last.policy.value).value])
  }

  function Parse(raw: RawGroup): Result<Group> {
    var included, excluded := NormalSet(raw.includes), NormalSet(raw.excludes);
    var default := PolicyNamed(raw.approvalPolicy);
    var overrides := Overrides(included, excluded, raw.overrides);
    if !ToolNames(raw.includes) || !ToolNames(raw.excludes) || default.None? || default.value.ReadOnly? || overrides.Refused?
    then Refused
    else Ok(Group(included, excluded, default.value, overrides.value))
  }

  method ParseOverrides(included: set<string>, excluded: set<string>, raw: seq<Override>) returns (r: Result<map<string, Policy>>)
    ensures r == Overrides(included, excluded, raw)
  {
    var overrides: map<string, Policy> := map[];
    for i := 0 to |raw|
      invariant Overrides(included, excluded, raw[..i]) == Ok(overrides)
    {
      assert raw[..i + 1][..i] == raw[..i];
      var o := raw[i];
      if o.policy.Some? {
        if !Legal(included, excluded, o) {
          RefusalStays(included, excluded, raw, i + 1);
          return Refused;
        }
        overrides := overrides[Normal(o.tool) := PolicyNamed(o.policy.value).value];
      }
    }
    assert raw[..|raw|] == raw;
    r := Ok(overrides);
  }

  /** Validates the exposure and the default, then each override in turn. */
  method ParseGroup(raw: RawGroup) returns (r: Result<Group>)
    ensures r == Parse(raw)
  {
    var included, excluded := NormalSet(raw.includes), NormalSet(raw.excludes);
    var default := PolicyNamed(raw.approvalPolicy);
    if !ToolNames(raw.includes) || !ToolNames(raw.excludes) || default.None? || default.value.ReadOnly? {
      return Refused;
    }
    var overrides := ParseOverrides(included, excluded, raw.overrides);
    r := if overrides.Refused? then Refused else Ok(Group(included, excluded, default.value, overrides.value));
  }

  lemma {:induction false} RefusalStays(included: set<string>, excluded: set<string>, raw: seq<Override>, n: nat)
    requires n <= |raw| && Overrides(included, excluded, raw[..n]).Refused?
    ensures Overrides(included, excluded, raw).Refused?
    decreases |raw|
  {
    if n < |raw| {
      assert raw[..|raw| - 1][..n] == raw[..n];
      RefusalStays(included, excluded, raw[..|raw| - 1], n);
    } else {
      assert raw[..n] == raw;
    }
  }

  // ---------- What a policy means ----------

  /** The default never reaches beyond the exposed tools: whatever is approved in advance is exposed. */
  lemma OnlyExposedToolsAreExempt(g: Group, tool: string)
    ensures ForTool(g, tool) != ApprovalRequired ==> Exposed(g, tool)
    ensures Exposed(g, tool) ==> ForTool(g, tool) == if tool in g.overrides then g.overrides[tool] else g.default
  {
  }

  lemma {:induction false} OverridesAreLegal(included: set<string>, excluded: set<string>, raw: seq<Override>)
    requires Overrides(included, excluded, raw).Ok?
    ensures var r := Overrides(included, excluded, raw).value;
            forall t :: t in r ==> exists o :: o in raw && o.policy.Some? && Legal(included, excluded, o)
                                               && Normal(o.tool) == t && PolicyNamed(o.policy.value) == Some(r[t])
    decreases |raw|
  {
    if raw != [] {
      OverridesAreLegal(included, excluded, raw[..|raw| - 1]);
    }
  }

  /** In a parsed group each override is in force, and each read-only tool is free of mutating words. */
  lemma ParsedGroupsAreSound(raw: RawGroup, tool: string)
    requires Parse(raw).Ok? && tool in Parse(raw).value.overrides
    ensures var g := Parse(raw).value;
            && Exposed(g, tool) && ForTool(g, tool) == g.overrides[tool]
            && (ForTool(g, tool) == ReadOnly ==> !IsMutating(tool, [], None))
  {
    var g := Parse(raw).value;
    OverridesAreLegal(g.included, g.excluded, raw.overrides);
    var o :| o in raw.overrides && o.policy.Some? && Legal(g.included, g.excluded, o)
             && Normal(o.tool) == tool && PolicyNamed(o.policy.value) == Some(g.overrides[tool]);
    NormalNamesMutateAlike(o.tool);
  }

  /** A default is never read-only, so only named tools are. */
  lemma ReadOnlyToolsAreNamed(raw: RawGroup, tool: string)
    requires Parse(raw).Ok? && ForTool(Parse(raw).value, tool) == ReadOnly
    ensures tool in Parse(raw).value.overrides
  {
  }

  // ---------- Case and surrounding space do not matter ----------

  lemma LowerParts(a: string, m: string, b: string)
    ensures Lower(a + m + b) == Lower(a) + Lower(m) + Lower(b)
  {
  }

  ghost predicate Solid(f: string) { f != "" && forall c :: c in f ==> !IsSpace(c) }

  // Words without spaces occur in a text as they do in its stripped form.
  lemma OccursInside(a: string, m: string, b: string, f: string, i: int)
    requires Solid(f) && forall c :: c in a + b ==> IsSpace(c)
    requires OccursAt(a + m + b, f, i)
    ensures OccursAt(m, f, i - |a|)
  {
    var s := a + m + b;
    forall k | 0 <= k < |a| ensures IsSpace(s[k]) {
      assert s[k] == a[k] && a[k] in a + b;
    }
    forall k | |a| + |m| <= k < |s| ensures IsSpace(s[k]) {
      assert s[k] == b[k - |a| - |m|] && b[k - |a| - |m|] in a + b;
    }
    forall k | i <= k < i + |f| ensures !IsSpace(s[k]) {
      assert s[k] == s[i..i + |f|][k - i] && f[k - i] in f;
    }
    assert !IsSpace(s[i]) && !IsSpace(s[i + |f| - 1]);
    assert |a| <= i && i + |f| <= |a| + |m|;
    assert m[i - |a|..i - |a| + |f|] == s[i..i + |f|];
  }

  lemma OccursOutside(a: string, m: string, b: string, f: string, i: int)
    requires OccursAt(m, f, i)
    ensures OccursAt(a + m + b, f, i + |a|)
  {
    assert (a + m + b)[i + |a|..i + |a| + |f|] == m[i..i + |f|];
  }

  lemma ContainsAlike(a: string, m: string, b: string, f: string)
    requires Solid(f) && forall c :: c in a + b ==> IsSpace(c)
    ensures Contains(a + m + b, f) <==> Contains(m, f)
  {
    if Contains(a + m + b, f) {
      var i :| 0 <= i <= |a + m + b| && OccursAt(a + m + b, f, i);
      OccursInside(a, m, b, f, i);
    }
    if Contains(m, f) {
      var i :| 0 <= i <= |m| && OccursAt(m, f, i);
      OccursOutside(a, m, b, f, i);
    }
  }

  lemma TokenInside(a: string, m: string, b: string, t: string, i: int)
    requires Solid(t) && forall c :: c in a + b ==> IsSpace(c)
    requires TokenAt(a + m + b, t, i)
    ensures TokenAt(m, t, i - |a|)
  {
    OccursInside(a, m, b, t, i);
  }

  lemma TokenOutside(a: string, m: string, b: string, t: string, i: int)
    requires forall c :: c in a + b ==> IsSpace(c)
    requires TokenAt(m, t, i)
    ensures TokenAt(a + m + b, t, i + |a|)
  {
    var s := a + m + b;
    OccursOutside(a, m, b, t, i);
    assert i == 0 && |a| > 0 ==> s[|a| - 1] == a[|a| - 1] && a[|a| - 1] in a + b;
    assert i + |t| == |m| && |b| > 0 ==> s[|a| + |m|] == b[0] && b[0] in a + b;
  }

  lemma HasTokenAlike(a: string, m: string, b: string, t: string)
    requires Solid(t) && forall c :: c in a + b ==> IsSpace(c)
    ensures HasToken(a + m + b, t) <==> HasToken(m, t)
  {
    if HasToken(a + m + b, t) {
      var i :| 0 <= i <= |a + m + b| && TokenAt(a + m + b, t, i);
      TokenInside(a, m, b, t, i);
    }
    if HasToken(m, t) {
      var i :| 0 <= i <= |m| && TokenAt(m, t, i);
      TokenOutside(a, m, b, t, i);
    }
  }

  lemma Fragments0()
    ensures forall i :: 0 <= i < 6 ==> Solid(MutatingFragments[i])
  {
  }

  lemma Fragments6()
    ensures forall i :: 6 <= i < 12 ==> Solid(MutatingFragments[i])
  {
  }

  lemma Fragments12()
    ensures forall i :: 12 <= i < 18 ==> Solid(MutatingFragments[i])
  {
  }

  lemma Fragments18()
    ensures forall i :: 18 <= i < 24 ==> Solid(MutatingFragments[i])
  {
  }

  lemma Tokens0()
    ensures forall i :: 0 <= i < 8 ==> Solid(MutatingTokens[i])
  {
  }

  lemma Tokens8()
    ensures forall i :: 8 <= i < 16 ==> Solid(MutatingTokens[i])
  {
  }

  lemma WordsAreSolid()
    ensures forall f :: f in MutatingFragments ==> Solid(f)
    ensures forall t :: t in MutatingTokens ==> Solid(t)
  {
    Fragments0();
    Fragments6();
    Fragments12();
    Fragments18();
    Tokens0();
    Tokens8();
  }

  lemma LooksMutatingAlike(a: string, m: string, b: string)
    requires forall c :: c in a + b ==> IsSpace(c)
    ensures LooksMutating(a + m + b) <==> LooksMutating(m)
  {
    WordsAreSolid();
    forall f | f in MutatingFragments ensures Contains(a + m + b, f) <==> Contains(m, f) {
      ContainsAlike(a, m, b, f);
    }
    forall t | t in MutatingTokens ensures HasToken(a + m + b, t) <==> HasToken(m, t) {
      HasTokenAlike(a, m, b, t);
    }
  }

  lemma SpacesHaveNoCase(a: string)
    requires forall c :: c in a ==> IsSpace(c)
    ensures Lower(a) == a
  {
    forall i | 0 <= i < |a| ensures Lower(a)[i] == a[i] {
      assert a[i] in a;
    }
  }

  /** The local detection of mutations gives the same answer for a raw name and its normal form. */
  lemma NormalNamesMutateAlike(tool: string)
    ensures IsMutating(tool, [], None) <==> IsMutating(Normal(tool), [], None)
  {
    var a, b := StripIsInfix(tool);
    LowerParts(a, Strip(tool), b);
    SpacesHaveNoCase(a);
    SpacesHaveNoCase(b);
    LooksMutatingAlike(a, Normal(tool), b);
    assert Lower(Normal(tool)) == Normal(tool);
    assert [tool] + [] == [tool] && [Normal(tool)] + [] == [Normal(tool)];
  }

  // ---------- What counts as a mutation ----------

  // A listed fragment anywhere in a text, or a listed word standing alone, in any case.
  ghost predicate Mentions(text: string) {
    || (exists f :: f in MutatingFragments && Contains(Lower(text), f))
    || (exists t :: t in MutatingTokens && HasToken(Lower(text), t))
  }

  /**
   * A call mutates exactly if the tool says that it is destructive, or the tool's name or one of the
   * given texts mentions a mutation: joining the texts neither hides a word nor makes one up.
   */
  lemma MutationsAreMentioned(tool: string, verbs: seq<string>, destructiveHint: Option<bool>)
    ensures IsMutating(tool, verbs, destructiveHint) <==>
            destructiveHint == Some(true) || Mentions(tool) || exists v :: v in verbs && Mentions(v)
  {
    JoinedMentions([tool] + verbs);
    assert ([tool] + verbs)[0] == tool;
    if v :| v in verbs && Mentions(v) {
      assert v in [tool] + verbs;
    }
  }

  lemma {:induction false} JoinedMentions(parts: seq<string>)
    ensures Mentions(Join(parts)) <==> exists p :: p in parts && Mentions(p)
    decreases |parts|
  {
    SomePart(parts, p => Mentions(p));
    if parts == [] {
      NothingMentioned();
    } else if |parts| > 1 {
      JoinedMentions(parts[1..]);
      PairMentions(parts[0], Join(parts[1..]));
    }
  }

  lemma SomePart(parts: seq<string>, P: string -> bool)
    ensures (exists p :: p in parts && P(p)) <==> parts != [] && (P(parts[0]) || exists p :: p in parts[1..] && P(p))
  {
    if parts != [] {
      assert parts == [parts[0]] + parts[1..];
      assert P(parts[0]) ==> parts[0] in parts;
      assert forall p :: p in parts <==> p == parts[0] || p in parts[1..];
    }
  }

  lemma NothingMentioned()
    ensures !Mentions("")
  {
    WordsAreSolid();
    forall f | f in MutatingFragments ensures !Contains(Lower(""), f) {
      assert Solid(f);
    }
    forall t | t in MutatingTokens ensures !HasToken(Lower(""), t) {
      assert Solid(t);
    }
  }

  lemma PairMentions(x: string, y: string)
    ensures Mentions(x + " " + y) <==> Mentions(x) || Mentions(y)
  {
    WordsAreSolid();
    LowerParts(x, " ", y);
    assert Lower(" ") == " ";
    forall f | f in MutatingFragments
      ensures Contains(Lower(x) + " " + Lower(y), f) <==> Contains(Lower(x), f) || Contains(Lower(y), f)
    {
      PairContains(Lower(x), Lower(y), f);
    }
    forall t | t in MutatingTokens
      ensures HasToken(Lower(x) + " " + Lower(y), t) <==> HasToken(Lower(x), t) || HasToken(Lower(y), t)
    {
      PairHasToken(Lower(x), Lower(y), t);
    }
  }

  // A word without spaces lies on one side of the space.
  lemma OccursBeside(x: string, y: string, f: string, i: int)
    requires Solid(f) && OccursAt(x + " " + y, f, i)
    ensures if i <= |x| then i + |f| <= |x| && OccursAt(x, f, i) else OccursAt(y, f, i - |x| - 1)
  {
    var s := x + " " + y;
    assert s[|x|] == ' ';
    forall k | i <= k < i + |f| ensures !IsSpace(s[k]) {
      assert s[k] == s[i..i + |f|][k - i] && f[k - i] in f;
    }
    if i <= |x| {
      assert x[i..i + |f|] == s[i..i + |f|];
    } else {
      assert y[i - |x| - 1..i - |x| - 1 + |f|] == s[i..i + |f|];
    }
  }

  lemma OccursWithin(x: string, y: string, f: string, i: int)
    ensures OccursAt(x, f, i) ==> OccursAt(x + " " + y, f, i)
    ensures OccursAt(y, f, i) ==> OccursAt(x + " " + y, f, i + |x| + 1)
  {
    var s := x + " " + y;
    if OccursAt(x, f, i) {
      assert s[i..i + |f|] == x[i..i + |f|];
    }
    if OccursAt(y, f, i) {
      assert s[i + |x| + 1..i + |x| + 1 + |f|] == y[i..i + |f|];
    }
  }

  lemma PairContains(x: string, y: string, f: string)
    requires Solid(f)
    ensures Contains(x + " " + y, f) <==> Contains(x, f) || Contains(y, f)
  {
    if i :| 0 <= i <= |x + " " + y| && OccursAt(x + " " + y, f, i) {
      OccursBeside(x, y, f, i);
    }
    if i :| 0 <= i <= |x| && OccursAt(x, f, i) {
      OccursWithin(x, y, f, i);
    }
    if i :| 0 <= i <= |y| && OccursAt(y, f, i) {
      OccursWithin(x, y, f, i);
      assert i + |x| + 1 <= |x + " " + y|;
    }
  }

  lemma TokenBeside(x: string, y: string, t: string, i: int)
    requires Solid(t) && TokenAt(x + " " + y, t, i)
    ensures if i <= |x| then TokenAt(x, t, i) else TokenAt(y, t, i - |x| - 1)
  {
    OccursBeside(x, y, t, i);
  }

  lemma TokenWithin(x: string, y: string, t: string, i: int)
    ensures TokenAt(x, t, i) ==> TokenAt(x + " " + y, t, i)
    ensures TokenAt(y, t, i) ==> TokenAt(x + " " + y, t, i + |x| + 1)
  {
    OccursWithin(x, y, t, i);
    assert (x + " " + y)[|x|] == ' ';
  }

  lemma PairHasToken(x: string, y: string, t: string)
    requires Solid(t)
    ensures HasToken(x + " " + y, t) <==> HasToken(x, t) || HasToken(y, t)
  {
    if i :| 0 <= i <= |x + " " + y| && TokenAt(x + " " + y, t, i) {
      TokenBeside(x, y, t, i);
    }
    if i :| 0 <= i <= |x| && TokenAt(x, t, i) {
      TokenWithin(x, y, t, i);
    }
    if i :| 0 <= i <= |y| && TokenAt(y, t, i) {
      TokenWithin(x, y, t, i);
      assert i + |x| + 1 <= |x + " " + y|;
    }
  }

  // ---------- Targets ----------

  // The group of a server name, and the tool's name within it.
  function Target(names: map<string, string>, server: string, tool: string): (string, string) {
    var logical := Lower(if server in names then names[server] else server);
    (logical, Unprefixed(logical, Normal(tool)))
  }

  function Unprefixed(logical: string, normal: string): string {
    if StartsWith(normal, logical + ".") then normal[|logical| + 1..]
    else if StartsWith(normal, logical + "::") then normal[|logical| + 2..]
    else normal
  }

  // What is left of a name: the rest after a prefix, or all of it where it has none.
  lemma UnprefixedExactly(logical: string, n: string, x: string)
    ensures Unprefixed(logical, n) == x <==>
            || n == logical + "." + x || n == logical + "::" + x
            || (n == x && !StartsWith(n, logical + ".") && !StartsWith(n, logical + "::"))
  {
    DotPrefix(logical, n, x);
    ColonPrefix(logical, n, x);
    OnePrefix(logical, n);
  }

  lemma DotPrefix(logical: string, n: string, x: string)
    ensures n == logical + "." + x <==> StartsWith(n, logical + ".") && n[|logical| + 1..] == x
  {
    if StartsWith(n, logical + ".") {
      assert n == n[..|logical| + 1] + n[|logical| + 1..];
    }
    if n == logical + "." + x {
      assert n[..|logical| + 1] == logical + "." && n[|logical| + 1..] == x;
    }
  }

  lemma ColonPrefix(logical: string, n: string, x: string)
    ensures n == logical + "::" + x <==> StartsWith(n, logical + "::") && n[|logical| + 2..] == x
  {
    if StartsWith(n, logical + "::") {
      assert n == n[..|logical| + 2] + n[|logical| + 2..];
    }
    if n == logical + "::" + x {
      assert n[..|logical| + 2] == logical + "::" && n[|logical| + 2..] == x;
    }
  }

  lemma OnePrefix(logical: string, n: string)
    ensures !(StartsWith(n, logical + ".") && StartsWith(n, logical + "::"))
  {
    if StartsWith(n, logical + ".") {
      assert n[..|logical| + 1][|logical|] == '.';
    }
    if StartsWith(n, logical + "::") {
      assert n[..|logical| + 2][|logical|] == ':';
    }
  }

  // One name written in another case, or with space around it.
  predicate SameName(x: string, y: string) { Lower(Strip(x)) == Lower(Strip(y)) }

  predicate Prefixed(logical: string, tool: string) {
    StartsWith(Lower(Strip(tool)), logical + ".") || StartsWith(Lower(Strip(tool)), logical + "::")
  }

  // A configured name stands for the called tool: it is the same name, or what follows the server's prefix.
  predicate StandsFor(logical: string, name: string, tool: string) {
    || (SameName(name, tool) && !Prefixed(logical, tool))
    || Lower(Strip(tool)) == logical + "." + Lower(Strip(name))
    || Lower(Strip(tool)) == logical + "::" + Lower(Strip(name))
  }

  function Logical(names: map<string, string>, server: string): string {
    Lower(if server in names then names[server] else server)
  }

  /**
   * The target of a tool is its lower-case name without surrounding space and without at most one
   * prefix of its server's group.
   */
  lemma TargetsAreNormal(names: map<string, string>, server: string, a: string, m: string, b: string)
    requires AllSpace(a) && AllSpace(b) && Trimmed(m)
    ensures var (logical, tool) := Target(names, server, a + m + b);
            && logical == Lower(if server in names then names[server] else server)
            && (forall rest :: Lower(m) == logical + "." + rest ==> tool == rest)
            && (forall rest :: Lower(m) == logical + "::" + rest ==> tool == rest)
            && (tool == Lower(m) || Lower(m) == logical + "." + tool || Lower(m) == logical + "::" + tool)
  {
    StripIs(a, m, b);
    var (logical, tool) := Target(names, server, a + m + b);
    assert tool == Unprefixed(logical, Lower(m));
    forall rest ensures (Lower(m) == logical + "." + rest || Lower(m) == logical + "::" + rest) ==> tool == rest {
      UnprefixedExactly(logical, Lower(m), rest);
    }
    UnprefixedExactly(logical, Lower(m), tool);
  }

  /** Neither the case of a tool's name nor the space around it changes its target. */
  lemma TargetsIgnoreCaseAndSpace(names: map<string, string>, server: string, a: string, tool: string, b: string)
    requires AllSpace(a) && AllSpace(b)
    ensures Target(names, server, a + tool + b) == Target(names, server, tool)
    ensures Target(names, server, Lower(tool)) == Target(names, server, tool)
  {
    var p, m, q := Trimming(tool);
    StripIs(a + p, m, q + b);
    assert a + tool + b == (a + p) + m + (q + b);
    LowerParts(p, m, q);
    SpacesHaveNoCase(p);
    SpacesHaveNoCase(q);
    LowerKeepsSpaces(m);
    StripIs(p, Lower(m), q);
    assert Lower(Lower(m)) == Lower(m);
  }

  lemma LowerKeepsSpaces(m: string)
    requires Trimmed(m)
    ensures Trimmed(Lower(m))
  {
  }

  /** A configured name is a call's target exactly if it stands for the called tool. */
  lemma TargetsAreStoodFor(names: map<string, string>, server: string, name: string, tool: string)
    ensures Normal(name) == Target(names, server, tool).1 <==> StandsFor(Logical(names, server), name, tool)
  {
    UnprefixedExactly(Logical(names, server), Normal(tool), Normal(name));
  }

  /**
   * What a configured group exposes, on the lists as they were written: a nonempty include list
   * decides alone, and an exclude list otherwise.
   */
  lemma GroupsExposeWhatIsNamed(raw: RawGroup, names: map<string, string>, server: string, tool: string)
    requires Parse(raw).Ok?
    ensures ForTool(Parse(raw).value, Target(names, server, tool).1) != ApprovalRequired ==>
              if raw.includes != [] then exists x :: x in raw.includes && StandsFor(Logical(names, server), x, tool)
              else forall x :: x in raw.excludes ==> !StandsFor(Logical(names, server), x, tool)
    ensures (if raw.includes != [] then exists x :: x in raw.includes && StandsFor(Logical(names, server), x, tool)
             else forall x :: x in raw.excludes ==> !StandsFor(Logical(names, server), x, tool))
            && Target(names, server, tool).1 !in Parse(raw).value.overrides ==>
              ForTool(Parse(raw).value, Target(names, server, tool).1) == Parse(raw).value.default
  {
    var t := Target(names, server, tool).1;
    forall x ensures Normal(x) == t <==> StandsFor(Logical(names, server), x, tool) {
      TargetsAreStoodFor(names, server, x, tool);
    }
    if raw.includes != [] {
      assert raw.includes[0] in raw.includes && Normal(raw.includes[0]) in NormalSet(raw.includes);
      assert t in NormalSet(raw.includes) <==> exists x :: x in raw.includes && StandsFor(Logical(names, server), x, tool);
    } else {
      assert NormalSet(raw.includes) == {};
    }
    assert forall x :: x in raw.excludes ==> Normal(x) in NormalSet(raw.excludes);
  }

  lemma OwnExclusionParses(tool: string, policy: string)
    requires Strip(tool) != "" && PolicyNamed(policy) == Some(AutoApprove)
    ensures Parse(RawGroup([], [tool], policy, [])) == Ok(Group({}, {Normal(tool)}, AutoApprove, map[]))
  {
    assert NormalSet([tool]) == {Normal(tool)} by {
      assert [tool][0] == tool;
    }
    assert NormalSet([]) == {};
  }

  /**
   * An exclusion written as the tool is called holds exactly if the name does not begin with its
   * server's prefix: the prefix is cut from the call, but not from the configured name.
   */
  lemma OwnNamesExclude(names: map<string, string>, server: string, tool: string, policy: string)
    requires Strip(tool) != "" && SameName(policy, "auto_approve")
    ensures var raw := RawGroup([], [tool], policy, []);
            && Parse(raw).Ok?
            && (ForTool(Parse(raw).value, Target(names, server, tool).1) == ApprovalRequired <==>
                !Prefixed(Logical(names, server), tool))
  {
    PoliciesAreNamed(policy);
    OwnExclusionParses(tool, policy);
    assert Target(names, server, tool).1 == Unprefixed(Logical(names, server), Normal(tool));
    PrefixesShorten(Logical(names, server), Normal(tool));
  }

  lemma PrefixesShorten(logical: string, n: string)
    ensures Unprefixed(logical, n) == n <==> !StartsWith(n, logical + ".") && !StartsWith(n, logical + "::")
  {
    if StartsWith(n, logical + ".") || StartsWith(n, logical + "::") {
      assert |Unprefixed(logical, n)| < |n|;
    }
  }

  // ---------- Which groups are accepted ----------

  // An override that gives no policy, or gives a permitted one to an exposed tool.
  ghost predicate Acceptable(raw: RawGroup, o: Override) {
    o.policy.Some? ==>
      && (SameName(o.policy.value, "read_only") || SameName(o.policy.value, "approval_required")
          || SameName(o.policy.value, "auto_approve"))
      && (if raw.includes != [] then exists x :: x in raw.includes && SameName(x, o.tool)
          else forall x :: x in raw.excludes ==> !SameName(x, o.tool))
      && (SameName(o.policy.value, "read_only") ==> !Mentions(o.tool))
  }

  /**
   * A group is accepted exactly if its names are not blank, its default approves in advance or asks,
   * and each override is acceptable; of several overrides of one tool the last is in force.
   */
  lemma GroupsParseExactly(raw: RawGroup)
    ensures Parse(raw).Ok? <==>
            && (forall x :: x in raw.includes + raw.excludes ==> Strip(x) != "")
            && (SameName(raw.approvalPolicy, "approval_required") || SameName(raw.approvalPolicy, "auto_approve"))
            && forall o :: o in raw.overrides ==> Acceptable(raw, o)
    ensures Parse(raw).Ok? ==> (Parse(raw).value.default == AutoApprove <==> SameName(raw.approvalPolicy, "auto_approve"))
  {
    var included, excluded := NormalSet(raw.includes), NormalSet(raw.excludes);
    PoliciesAreNamed(raw.approvalPolicy);
    OverridesParseExactly(included, excluded, raw.overrides);
    if raw.includes != [] {
      assert Normal(raw.includes[0]) in included;
    }
    forall o | o in raw.overrides ensures Acceptable(raw, o) <==> (o.policy.Some? ==> Legal(included, excluded, o)) {
      AcceptableMeansLegal(raw, o);
    }
    assert ToolNames(raw.includes) && ToolNames(raw.excludes) <==>
           forall x :: x in raw.includes + raw.excludes ==> Strip(x) != "" by {
      assert forall x :: x in raw.includes + raw.excludes <==> x in raw.includes || x in raw.excludes;
    }
  }

  lemma LowerWordsAreNormal(s: string)
    requires forall i :: 0 <= i < |s| ==> 'a' <= s[i] <= 'z' || s[i] == '_'
    ensures Normal(s) == s
  {
    StripIs("", s, "");
    assert "" + s + "" == s;
  }

  lemma ReadOnlyIsNormal()
    ensures Normal("read_only") == "read_only"
  {
    LowerWordsAreNormal("read_only");
  }

  lemma ApprovalRequiredIsNormal()
    ensures Normal("approval_required") == "approval_required"
  {
    LowerWordsAreNormal("approval_required");
  }

  lemma AutoApproveIsNormal()
    ensures Normal("auto_approve") == "auto_approve"
  {
    LowerWordsAreNormal("auto_approve");
  }

  lemma PoliciesAreNamed(s: string)
    ensures PolicyNamed(s) == Some(ReadOnly) <==> SameName(s, "read_only")
    ensures PolicyNamed(s) == Some(ApprovalRequired) <==> SameName(s, "approval_required")
    ensures PolicyNamed(s) == Some(AutoApprove) <==> SameName(s, "auto_approve")
  {
    ReadOnlyIsNormal();
    ApprovalRequiredIsNormal();
    AutoApproveIsNormal();
    assert Normal(s) == Lower(Strip(s));
  }

  lemma {:induction false} OverridesParseExactly(included: set<string>, excluded: set<string>, raw: seq<Override>)
    ensures Overrides(included, excluded, raw).Ok? <==> forall o :: o in raw && o.policy.Some? ==> Legal(included, excluded, o)
    decreases |raw|
  {
    if raw != [] {
      var n := |raw| - 1;
      OverridesParseExactly(included, excluded, raw[..n]);
      assert raw == raw[..n] + [raw[n]];
    }
  }

  lemma AcceptableMeansLegal(raw: RawGroup, o: Override)
    ensures Acceptable(raw, o) <==> (o.policy.Some? ==> Legal(NormalSet(raw.includes), NormalSet(raw.excludes), o))
  {
    if o.policy.Some? {
      PoliciesAreNamed(o.policy.value);
    }
    MutationsAreMentioned(o.tool, [], None);
    if raw.includes != [] {
      assert raw.includes[0] in raw.includes && Normal(raw.includes[0]) in NormalSet(raw.includes);
    }
    NormalSetHolds(raw.includes, o.tool);
    NormalSetHolds(raw.excludes, o.tool);
  }

  lemma NormalSetHolds(raw: seq<string>, tool: string)
    ensures Normal(tool) in NormalSet(raw) <==> exists x :: x in raw && SameName(x, tool)
  {
    if x :| x in raw && SameName(x, tool) {
      assert Normal(x) == Normal(tool);
    }
  }

  /** Of the overrides of one tool, the last one that gives a policy is in force. */
  lemma {:induction false} LastOverridesStand(included: set<string>, excluded: set<string>, raw: seq<Override>, k: nat)
    requires Overrides(included, excluded, raw).Ok?
    requires k < |raw| && raw[k].policy.Some?
    requires forall j :: k < j < |raw| && raw[j].policy.Some? ==> !SameName(raw[j].tool, raw[k].tool)
    ensures var r := Overrides(included, excluded, raw).value;
            Normal(raw[k].tool) in r && Some(r[Normal(raw[k].tool)]) == PolicyNamed(raw[k].policy.value)
    decreases |raw|
  {
    var n := |raw| - 1;
    if k < n {
      LastOverridesStand(included, excluded, raw[..n], k);
    }
  }

  // ---------- Full names ----------

  const SEPARATOR := "__"

  function FullName(server: string, tool: string): string { server + SEPARATOR + tool }

  // `partition`: the parts around the first separator.
  function Partition(s: string): Option<(string, string)>
    decreases |s|
  {
    if StartsWith(s, SEPARATOR) then Some(("", s[2..]))
    else if s == "" then None
    else
      var rest := Partition(s[1..]);
      if rest.None? then None else Some(([s[0]] + rest.value.0, rest.value.1))
  }

  /** Splitting a full name recovers its parts if and only if the server's name cannot blur the separator. */
  lemma {:induction false} FullNamesSplit(server: string, tool: string)
    ensures Partition(FullName(server, tool)).Some?
    ensures Partition(FullName(server, tool)) == Some((server, tool)) <==> !Contains(server + "_", SEPARATOR)
    decreases |server|
  {
    var full := FullName(server, tool);
    if server == "" {
      assert full == SEPARATOR + tool && !Contains("" + "_", SEPARATOR);
    } else {
      var rest := server[1..];
      FullNamesSplit(rest, tool);
      assert full == [server[0]] + FullName(rest, tool) && full[1..] == FullName(rest, tool);
      ContainsInTail(server);
      assert StartsWith(full, SEPARATOR) <==> StartsWith(server + "_", SEPARATOR) by {
        FirstTwo(server, tool);
      }
      if !StartsWith(full, SEPARATOR) {
        var parts := Partition(FullName(rest, tool)).value;
        assert Partition(full) == Some(([server[0]] + parts.0, parts.1));
        assert server == [server[0]] + rest;
        assert ([server[0]] + parts.0)[1..] == parts.0;
      }
    }
  }

  lemma FirstTwo(server: string, tool: string)
    requires server != ""
    ensures StartsWith(FullName(server, tool), SEPARATOR) <==> StartsWith(server + "_", SEPARATOR)
  {
    assert FullName(server, tool)[..2] == (server + "_")[..2];
  }

  lemma ContainsInTail(server: string)
    requires server != ""
    ensures Contains(server + "_", SEPARATOR) <==>
            StartsWith(server + "_", SEPARATOR) || Contains(server[1..] + "_", SEPARATOR)
  {
    var s, t := server + "_", server[1..] + "_";
    assert s[1..] == t;
    if StartsWith(s, SEPARATOR) {
      assert OccursAt(s, SEPARATOR, 0);
    }
    if Contains(t, SEPARATOR) {
      var i :| 0 <= i <= |t| && OccursAt(t, SEPARATOR, i);
      assert s[i + 1..i + 3] == t[i..i + 2];
      assert OccursAt(s, SEPARATOR, i + 1);
    }
    if Contains(s, SEPARATOR) {
      var i :| 0 <= i <= |s| && OccursAt(s, SEPARATOR, i);
      if i > 0 {
        assert t[i - 1..i + 1] == s[i..i + 2];
        assert OccursAt(t, SEPARATOR, i - 1);
      }
    }
  }

  /** A server whose name ends in one underscore passes the check for separators, but its calls reach another server. */
  lemma TrailingUnderscoreRedirects(server: string, tool: string)
    requires !Contains(server + "_", SEPARATOR)
    ensures !Contains(server + "_", SEPARATOR) && Partition(FullName(server + "_", tool)) == Some((server, "_" + tool))
  {
    assert FullName(server + "_", tool) == FullName(server, "_" + tool);
    FullNamesSplit(server, "_" + tool);
  }

  predicate EndsBlurred(server: string) { server != "" && server[|server| - 1] == '_' }

  // The guard and a last character other than an underscore keep the separator clear.
  lemma GuardedNamesAreClear(server: string)
    requires !Contains(server, SEPARATOR) && !EndsBlurred(server)
    ensures !Contains(server + "_", SEPARATOR)
  {
    var s := server + "_";
    assert SEPARATOR[0] == '_' && |SEPARATOR| == 2;
    forall i | 0 <= i <= |s| ensures !OccursAt(s, SEPARATOR, i) {
      if i + 2 <= |server| {
        assert server[i..i + 2] == s[i..i + 2] && !OccursAt(server, SEPARATOR, i);
      } else if i + 1 == |server| {
        assert s[i..i + 2][0] == server[|server| - 1] != SEPARATOR[0];
      }
    }
  }

  lemma SpacesAround(a: string, m: string, b: string)
    requires forall c :: c in a + b ==> IsSpace(c)
    ensures forall c :: c in a ==> IsSpace(c)
    ensures forall c :: c in b ==> IsSpace(c)
  {
    forall c | c in a ensures c in a + b {
    }
    forall c | c in b ensures c in a + b {
    }
  }

  lemma StrippingKeepsTheEnd(server: string)
    requires EndsBlurred(server)
    ensures EndsBlurred(Strip(server))
  {
    var a, b := StripIsInfix(server);
    var m := Strip(server);
    SpacesAround(a, m, b);
    assert server == a + m + b;
    forall k | 0 <= k < |server| && (k < |a| || |a| + |m| <= k) ensures IsSpace(server[k]) {
      assert server[k] == if k < |a| then a[k] else b[k - |a| - |m|];
      assert server[k] in a || server[k] in b;
    }
    assert |a| <= |server| - 1 < |a| + |m|;
    assert server[|server| - 1] == m[|m| - 1];
  }

  // ---------- Endpoints ----------

  datatype Binding = Binding(endpoint: string, group: string)

  // The groups that bind one endpoint, in order.
  function GroupsOf(bindings: seq<Binding>, endpoint: string): seq<string> {
    if bindings == [] then []
    else
      var last := bindings[|bindings| - 1];
      GroupsOf(bindings[..|bindings| - 1], endpoint) + if last.endpoint == endpoint then [last.group] else []
  }

  lemma GroupsOfGrow(bindings: seq<Binding>, b: Binding, endpoint: string)
    ensures GroupsOf(bindings + [b], endpoint) == if b.endpoint == endpoint then GroupsOf(bindings, endpoint) + [b.group]
                                                  else GroupsOf(bindings, endpoint)
  {
    assert (bindings + [b])[..|bindings|] == bindings;
  }

  // All named groups agree, from the first nonempty name on.
  ghost predicate Unanimous(groups: seq<string>, name: string) {
    exists k :: 0 <= k < |groups| && NamedFrom(groups, name, k)
  }

  ghost predicate NamedFrom(groups: seq<string>, name: string, k: nat)
    requires k <= |groups|
  {
    (forall i :: 0 <= i < k ==> groups[i] == "") && forall i :: k <= i < |groups| ==> groups[i] == name
  }

  ghost predicate Disputed(groups: seq<string>) {
    exists i, j :: 0 <= i < j < |groups| && groups[i] != "" && groups[j] != groups[i]
  }

  class EndpointRegistry {
    var endpoints: map<string, string>
    var ambiguous: set<string>

    constructor ()
      ensures endpoints == map[] && ambiguous == {}
    {
      endpoints, ambiguous := map[], {};
    }

    ghost predicate Reflects(bindings: seq<Binding>) reads this {
      forall p :: ReflectsOne(p, bindings)
    }

    ghost predicate ReflectsOne(p: string, bindings: seq<Binding>) reads this {
      if p == "" then p !in endpoints && p !in ambiguous
      else Settles(GroupsOf(bindings, p), if p in endpoints then Some(endpoints[p]) else None, p in ambiguous)
    }

    // An endpoint that two groups claim belongs to neither.
    method Bind(endpoint: string, group: string, ghost earlier: seq<Binding>)
      requires Reflects(earlier)
      modifies this
      ensures Reflects(earlier + [Binding(endpoint, group)])
    {
      ghost var b := Binding(endpoint, group);
      assert ReflectsOne(endpoint, earlier);
      if endpoint != "" {
        SettledGrow(GroupsOf(earlier, endpoint), if endpoint in endpoints then Some(endpoints[endpoint]) else None,
                    endpoint in ambiguous, group);
      }
      if endpoint == "" || endpoint in ambiguous {
      } else if endpoint in endpoints && endpoints[endpoint] != "" && endpoints[endpoint] != group {
        endpoints := endpoints - {endpoint};
        ambiguous := ambiguous + {endpoint};
      } else {
        endpoints := endpoints[endpoint := group];
      }
      forall p ensures ReflectsOne(p, earlier + [b]) {
        assert old(ReflectsOne(p, earlier));
        GroupsOfGrow(earlier, b, p);
      }
    }

    method BindAll(bindings: seq<Binding>)
      requires endpoints == map[] && ambiguous == {}
      modifies this
      ensures forall p :: p in endpoints ==> p != "" && Unanimous(GroupsOf(bindings, p), endpoints[p])
      ensures forall p, name :: p != "" && Unanimous(GroupsOf(bindings, p), name) ==> p in endpoints && endpoints[p] == name
      ensures forall p :: p in ambiguous <==> p != "" && Disputed(GroupsOf(bindings, p))
    {
      for n := 0 to |bindings|
        invariant Reflects(bindings[..n])
      {
        assert bindings[..n + 1] == bindings[..n] + [Binding(bindings[n].endpoint, bindings[n].group)];
        Bind(bindings[n].endpoint, bindings[n].group, bindings[..n]);
      }
      assert bindings[..|bindings|] == bindings;
      assert Reflects(bindings);
      forall p
        ensures p in endpoints ==> p != "" && Unanimous(GroupsOf(bindings, p), endpoints[p])
        ensures p in ambiguous <==> p != "" && Disputed(GroupsOf(bindings, p))
        ensures forall name :: p != "" && Unanimous(GroupsOf(bindings, p), name) ==> p in endpoints && endpoints[p] == name
      {
        assert ReflectsOne(p, bindings);
        if p != "" {
          SettledMeans(GroupsOf(bindings, p), if p in endpoints then Some(endpoints[p]) else None, p in ambiguous);
        }
      }
    }
  }

  // What the registry holds of one endpoint, given the groups that bound it.
  ghost predicate Settles(groups: seq<string>, bound: Option<string>, disputed: bool) {
    && (disputed <==> Disputed(groups))
    && (bound.Some? <==> groups != [] && !disputed)
    && (bound.Some? ==> Unanimous(groups, bound.value))
  }

  lemma SettledMeans(groups: seq<string>, bound: Option<string>, disputed: bool)
    requires Settles(groups, bound, disputed)
    ensures forall name :: Unanimous(groups, name) ==> bound == Some(name)
  {
    forall name | Unanimous(groups, name) ensures bound == Some(name) {
      var k :| 0 <= k < |groups| && NamedFrom(groups, name, k);
      assert groups[|groups| - 1] == name;
    }
  }

  lemma SettledGrow(groups: seq<string>, bound: Option<string>, disputed: bool, group: string)
    requires Settles(groups, bound, disputed)
    ensures Settles(groups + [group],
                    if disputed || (bound.Some? && bound.value != "" && bound.value != group) then None else Some(group),
                    disputed || (bound.Some? && bound.value != "" && bound.value != group))
  {
    var after := groups + [group];
    var n := |groups|;
    if disputed {
      var i, j :| 0 <= i < j < |groups| && groups[i] != "" && groups[j] != groups[i];
      assert after[i] != "" && after[j] != after[i];
    } else if bound.Some? && bound.value != "" && bound.value != group {
      assert groups[n - 1] == bound.value && after[n - 1] != "" && after[n] != after[n - 1];
    } else {
      UnanimousGrows(groups, bound, group);
    }
  }

  lemma UnanimousGrows(groups: seq<string>, bound: Option<string>, group: string)
    requires Settles(groups, bound, false)
    requires bound.Some? ==> bound.value == "" || bound.value == group
    ensures Unanimous(groups + [group], group) && !Disputed(groups + [group])
  {
    var after := groups + [group];
    var n := |groups|;
    if groups == [] {
      assert NamedFrom(after, group, 0);
    } else {
      var k :| 0 <= k < n && NamedFrom(groups, bound.value, k);
      assert NamedFrom(after, group, if bound.value == group then k else n);
    }
  }
}
