/**
 * The comparison of two request logs up to the completion order of parallel tools.
 *
 * Within a request each maximal run of adjacent tool outputs is sorted by its JSON text; an item is
 * known by that text.  Requests are grouped by conversation, in their order.
 */
module DifferentialRequests {
  import opened CanonicalJson

  // A tool output, or any other item; `dump` is the item's JSON text with sorted keys.
  datatype Item = Item(output: bool, dump: string)

  datatype Input = Plain(dump: string) | List(items: seq<Item>)

  datatype Request = Request(user: string, input: Input, rest: string)

  // ---------- Normal forms ----------

  // Sorts an output into the run of outputs that starts here.
  function Place(x: Item, s: seq<Item>): seq<Item>
    decreases |s|
  {
    if s != [] && s[0].output && Less(s[0].dump, x.dump) then [s[0]] + Place(x, s[1..]) else [x] + s
  }

  function Normal(items: seq<Item>): seq<Item>
    decreases |items|
  {
    if items == [] then []
    else if items[0].output then Place(items[0], Normal(items[1..]))
    else [items[0]] + Normal(items[1..])
  }

  function NormalRequest(r: Request): Request {
    if r.input.List? then r.(input := List(Normal(r.input.items))) else r
  }

  function Conversation(requests: seq<Request>, user: string): seq<Request> {
    if requests == [] then []
    else
      var last := requests[|requests| - 1];
      Conversation(requests[..|requests| - 1], user) + if last.user == user then [last] else []
  }

  function NormalRequests(requests: seq<Request>): seq<Request> {
    seq(|requests|, i requires 0 <= i < |requests| => NormalRequest(requests[i]))
  }

  function Users(requests: seq<Request>): set<string> { set r | r in requests :: r.user }

  function Grouped(requests: seq<Request>): map<string, seq<Request>> {
    map user | user in Users(requests) :: NormalRequests(Conversation(requests, user))
  }

  // ---------- Exchanges of adjacent outputs ----------

  // Exchanges the items at `i` and `i + 1` when both are outputs.
  function Exchange(items: seq<Item>, i: nat): seq<Item> {
    if i + 1 < |items| && items[i].output && items[i + 1].output
    then items[..i] + [items[i + 1], items[i]] + items[i + 2..] else items
  }

  function Exchanges(items: seq<Item>, at: seq<nat>): seq<Item>
    decreases |at|
  {
    if at == [] then items else Exchanges(Exchange(items, at[0]), at[1..])
  }

  ghost predicate Reachable(a: seq<Item>, b: seq<Item>) {
    exists at :: Exchanges(a, at) == b
  }

  lemma {:induction false} ExchangesCompose(items: seq<Item>, p: seq<nat>, q: seq<nat>)
    ensures Exchanges(items, p + q) == Exchanges(Exchanges(items, p), q)
    decreases |p|
  {
    if p == [] {
      assert p + q == q;
    } else {
      assert (p + q)[1..] == p[1..] + q;
      ExchangesCompose(Exchange(items, p[0]), p[1..], q);
    }
  }

  lemma ReachableComposes(a: seq<Item>, b: seq<Item>, c: seq<Item>)
    requires Reachable(a, b) && Reachable(b, c)
    ensures Reachable(a, c)
  {
    var p :| Exchanges(a, p) == b;
    var q :| Exchanges(b, q) == c;
    ExchangesCompose(a, p, q);
  }

  lemma ExchangeIsItsOwnInverse(items: seq<Item>, i: nat)
    ensures Exchange(Exchange(items, i), i) == items
  {
  }

  lemma {:induction false} ReachableIsSymmetric(a: seq<Item>, at: seq<nat>)
    ensures Reachable(Exchanges(a, at), a)
    decreases |at|
  {
    if at == [] {
      assert Exchanges(a, []) == a;
    } else {
      var b := Exchange(a, at[0]);
      ReachableIsSymmetric(b, at[1..]);
      ExchangeIsItsOwnInverse(a, at[0]);
      OneExchange(b, at[0]);
      ReachableComposes(Exchanges(b, at[1..]), b, a);
    }
  }

  lemma OneExchange(a: seq<Item>, i: nat)
    ensures Reachable(a, Exchange(a, i))
  {
    assert Exchanges(a, [i]) == Exchange(a, i) by {
      assert [i][1..] == [];
    }
  }

  lemma {:induction false} ExchangesUnder(h: Item, s: seq<Item>, at: seq<nat>)
    ensures Reachable([h] + s, [h] + Exchanges(s, at))
    decreases |at|
  {
    if at == [] {
      assert Exchanges([h] + s, []) == [h] + s;
    } else {
      assert Exchange([h] + s, at[0] + 1) == [h] + Exchange(s, at[0]);
      OneExchange([h] + s, at[0] + 1);
      ExchangesUnder(h, Exchange(s, at[0]), at[1..]);
      ReachableComposes([h] + s, [h] + Exchange(s, at[0]), [h] + Exchanges(s, at));
    }
  }

  lemma ReachableUnder(h: Item, s: seq<Item>, t: seq<Item>)
    requires Reachable(s, t)
    ensures Reachable([h] + s, [h] + t)
  {
    var at :| Exchanges(s, at) == t;
    ExchangesUnder(h, s, at);
  }

  lemma ReachableItself(a: seq<Item>)
    ensures Reachable(a, a)
  {
    assert Exchanges(a, []) == a;
  }

  lemma {:induction false} PlacingIsReachable(x: Item, s: seq<Item>)
    requires x.output
    ensures Reachable([x] + s, Place(x, s))
    decreases |s|
  {
    if s != [] && s[0].output && Less(s[0].dump, x.dump) {
      var swapped := [s[0]] + ([x] + s[1..]);
      assert Exchange([x] + s, 0) == swapped;
      OneExchange([x] + s, 0);
      PlacingIsReachable(x, s[1..]);
      ReachableUnder(s[0], [x] + s[1..], Place(x, s[1..]));
      ReachableComposes([x] + s, swapped, Place(x, s));
    } else {
      ReachableItself([x] + s);
    }
  }

  lemma {:induction false} NormalIsReachable(items: seq<Item>)
    ensures Reachable(items, Normal(items))
    decreases |items|
  {
    if items == [] {
      ReachableItself(items);
    } else {
      var h, t := items[0], items[1..];
      assert items == [h] + t;
      NormalIsReachable(t);
      ReachableUnder(h, t, Normal(t));
      if h.output {
        PlacingIsReachable(h, Normal(t));
        ReachableComposes(items, [h] + Normal(t), Normal(items));
      }
    }
  }

  // ---------- Exchanges do not change the normal form ----------

  lemma {:induction false} PlacingCommutes(x: Item, y: Item, s: seq<Item>)
    requires x.output && y.output
    ensures Place(x, Place(y, s)) == Place(y, Place(x, s))
    decreases |s|
  {
    LessIsTotal(x.dump, y.dump);
    if s != [] && s[0].output {
      if Less(s[0].dump, x.dump) && Less(s[0].dump, y.dump) {
        PlacingCommutes(x, y, s[1..]);
      } else if Less(s[0].dump, x.dump) {
        LessIsTotal(s[0].dump, y.dump);
        BothBelow(y.dump, s[0].dump, x.dump);
      } else if Less(s[0].dump, y.dump) {
        LessIsTotal(s[0].dump, x.dump);
        BothBelow(x.dump, s[0].dump, y.dump);
      }
    }
  }

  lemma BothBelow(a: string, b: string, c: string)
    requires !Less(b, a) && Less(b, c)
    ensures Less(a, c)
  {
    LessIsTotal(a, b);
    if Less(a, b) {
      LessIsTransitive(a, b, c);
    }
  }

  lemma NormalOfTwo(x: Item, y: Item, rest: seq<Item>)
    requires x.output && y.output
    ensures Normal([x, y] + rest) == Place(x, Place(y, Normal(rest)))
  {
    assert ([x, y] + rest)[1..] == [y] + rest && ([y] + rest)[1..] == rest;
  }

  lemma ExchangeBehind(h: Item, t: seq<Item>, i: nat)
    ensures Exchange([h] + t, i + 1) == [h] + Exchange(t, i)
  {
  }

  lemma NormalUnder(h: Item, t: seq<Item>)
    ensures Normal([h] + t) == if h.output then Place(h, Normal(t)) else [h] + Normal(t)
  {
    assert ([h] + t)[1..] == t;
  }

  lemma {:induction false} ExchangeKeepsNormal(items: seq<Item>, i: nat)
    ensures Normal(Exchange(items, i)) == Normal(items)
    decreases |items|
  {
    if i + 1 < |items| && items[i].output && items[i + 1].output {
      if i == 0 {
        var x, y, rest := items[0], items[1], items[2..];
        assert items == [x, y] + rest && Exchange(items, 0) == [y, x] + rest;
        NormalOfTwo(x, y, rest);
        NormalOfTwo(y, x, rest);
        PlacingCommutes(x, y, Normal(rest));
      } else {
        var h, t := items[0], items[1..];
        assert items == [h] + t;
        ExchangeKeepsNormal(t, i - 1);
        ExchangeBehind(h, t, i - 1);
        NormalUnder(h, t);
        NormalUnder(h, Exchange(t, i - 1));
      }
    }
  }

  lemma {:induction false} ExchangesKeepNormal(items: seq<Item>, at: seq<nat>)
    ensures Normal(Exchanges(items, at)) == Normal(items)
    decreases |at|
  {
    if at != [] {
      ExchangeKeepsNormal(items, at[0]);
      ExchangesKeepNormal(Exchange(items, at[0]), at[1..]);
    }
  }

  /** Two inputs have the same normal form if and only if exchanges of adjacent outputs lead from one to the other. */
  lemma NormalMeansReachable(a: seq<Item>, b: seq<Item>)
    ensures Normal(a) == Normal(b) <==> Reachable(a, b)
  {
    if Reachable(a, b) {
      var at :| Exchanges(a, at) == b;
      ExchangesKeepNormal(a, at);
    }
    if Normal(a) == Normal(b) {
      NormalIsReachable(a);
      NormalIsReachable(b);
      var at :| Exchanges(b, at) == Normal(b);
      ReachableIsSymmetric(b, at);
      ReachableComposes(a, Normal(a), b);
    }
  }

  // No output stands right before one with a smaller text.
  ghost predicate SortedRuns(items: seq<Item>) {
    forall i :: 0 <= i < |items| - 1 && items[i].output && items[i + 1].output ==> !Less(items[i + 1].dump, items[i].dump)
  }

  lemma {:induction false} PlacingKeepsSorted(x: Item, s: seq<Item>)
    requires x.output && SortedRuns(s)
    ensures SortedRuns(Place(x, s))
    decreases |s|
  {
    var r := Place(x, s);
    if s != [] && s[0].output && Less(s[0].dump, x.dump) {
      assert SortedRuns(s[1..]) by {
        assert forall i :: 0 <= i < |s[1..]| ==> s[1..][i] == s[i + 1];
      }
      PlacingKeepsSorted(x, s[1..]);
      PlacedFirst(x, s[1..]);
      LessIsTotal(s[0].dump, x.dump);
      SortedBehind(s[0], Place(x, s[1..]));
    } else {
      SortedBehind(x, s);
    }
  }

  lemma PlacedFirst(x: Item, s: seq<Item>)
    ensures Place(x, s) != [] && (Place(x, s)[0] == x || (s != [] && Place(x, s)[0] == s[0]))
  {
  }

  lemma SortedBehind(h: Item, s: seq<Item>)
    requires SortedRuns(s)
    requires s != [] && h.output && s[0].output ==> !Less(s[0].dump, h.dump)
    ensures SortedRuns([h] + s)
  {
  }

  /** The normal form sorts each run of adjacent outputs by their texts. */
  lemma {:induction false} NormalIsSorted(items: seq<Item>)
    ensures SortedRuns(Normal(items))
    decreases |items|
  {
    if items != [] {
      NormalIsSorted(items[1..]);
      if items[0].output {
        PlacingKeepsSorted(items[0], Normal(items[1..]));
      } else {
        SortedBehind(items[0], Normal(items[1..]));
      }
    }
  }

  // ---------- Whole logs ----------

  // Equal but for the order within runs of adjacent outputs.
  ghost predicate Alike(a: Request, b: Request) {
    && a.user == b.user && a.rest == b.rest
    && if a.input.List? && b.input.List? then Reachable(a.input.items, b.input.items) else a.input == b.input
  }

  ghost predicate AllAlike(a: seq<Request>, b: seq<Request>) {
    |a| == |b| && forall i :: 0 <= i < |a| ==> Alike(a[i], b[i])
  }

  lemma NormalRequestsMeanAlike(a: seq<Request>, b: seq<Request>)
    ensures NormalRequests(a) == NormalRequests(b) <==> AllAlike(a, b)
  {
    if |a| == |b| {
      forall i | 0 <= i < |a| ensures NormalRequest(a[i]) == NormalRequest(b[i]) <==> Alike(a[i], b[i]) {
        if a[i].input.List? && b[i].input.List? {
          NormalMeansReachable(a[i].input.items, b[i].input.items);
        }
      }
      if NormalRequests(a) == NormalRequests(b) {
        forall i | 0 <= i < |a| ensures Alike(a[i], b[i]) {
          assert NormalRequests(a)[i] == NormalRequests(b)[i];
        }
      }
    } else {
      assert |NormalRequests(a)| != |NormalRequests(b)|;
    }
  }

  lemma {:induction false} ConversationMembers(requests: seq<Request>, user: string)
    ensures Conversation(requests, user) == [] <==> user !in Users(requests)
    decreases |requests|
  {
    if requests != [] {
      var n := |requests| - 1;
      ConversationMembers(requests[..n], user);
      assert requests == requests[..n] + [requests[n]];
    }
  }

  ghost predicate SameAt(a: map<string, seq<Request>>, b: map<string, seq<Request>>, user: string) {
    (user in a <==> user in b) && (user in a ==> a[user] == b[user])
  }

  lemma ConversationsMatch(a: seq<Request>, b: seq<Request>, user: string)
    ensures SameAt(Grouped(a), Grouped(b), user) <==> AllAlike(Conversation(a, user), Conversation(b, user))
  {
    ConversationMembers(a, user);
    ConversationMembers(b, user);
    NormalRequestsMeanAlike(Conversation(a, user), Conversation(b, user));
  }

  lemma MapsMatch(a: map<string, seq<Request>>, b: map<string, seq<Request>>)
    ensures a == b <==> forall user :: SameAt(a, b, user)
  {
    if forall user :: SameAt(a, b, user) {
      forall user ensures user in a <==> user in b {
        assert SameAt(a, b, user);
      }
      forall user | user in a ensures a[user] == b[user] {
        assert SameAt(a, b, user);
      }
    }
  }

  /**
   * Two logs compare equal if and only if in each conversation the requests agree in order, up to
   * exchanges of adjacent tool outputs; how conversations interleave does not matter.
   */
  lemma GroupedMeansAlike(a: seq<Request>, b: seq<Request>)
    ensures Grouped(a) == Grouped(b) <==> forall user :: AllAlike(Conversation(a, user), Conversation(b, user))
  {
    MapsMatch(Grouped(a), Grouped(b));
    forall user ensures SameAt(Grouped(a), Grouped(b), user) <==> AllAlike(Conversation(a, user), Conversation(b, user)) {
      ConversationsMatch(a, b, user);
    }
    if Grouped(a) == Grouped(b) {
      forall user ensures AllAlike(Conversation(a, user), Conversation(b, user)) {
        assert SameAt(Grouped(a), Grouped(b), user);
      }
    } else {
      var user :| !SameAt(Grouped(a), Grouped(b), user);
      assert !AllAlike(Conversation(a, user), Conversation(b, user));
    }
  }

  /** The requests of a conversation are those of its user, in the order of the log. */
  lemma {:induction false} ConversationsJoin(a: seq<Request>, b: seq<Request>, user: string)
    ensures Conversation(a + b, user) == Conversation(a, user) + Conversation(b, user)
    ensures |a| == 1 ==> Conversation(a, user) == if a[0].user == user then a else []
    decreases |b|
  {
    if |a| == 1 {
      assert a[..0] == [] && [a[0]] == a;
      assert Conversation([], user) == [];
    }
    if b == [] {
      assert a + b == a;
    } else {
      var n := |b| - 1;
      assert (a + b)[..|a| + n] == a + b[..n];
      ConversationsJoin(a, b[..n], user);
    }
  }

  // ---------- The loops ----------

  lemma {:induction false} PlacedInRun(x: Item, run: seq<Item>, rest: seq<Item>)
    requires forall y :: y in run ==> y.output
    requires rest != [] ==> !rest[0].output
    ensures Place(x, run + rest) == Place(x, run) + rest
    decreases |run|
  {
    if run == [] {
      assert run + rest == rest;
    } else {
      assert (run + rest)[1..] == run[1..] + rest;
      PlacedInRun(x, run[1..], rest);
    }
  }

  lemma {:induction false} PlaceMembers(x: Item, s: seq<Item>)
    requires x.output && forall y :: y in s ==> y.output
    ensures forall y :: y in Place(x, s) ==> y.output
    decreases |s|
  {
    if s != [] && Less(s[0].dump, x.dump) {
      PlaceMembers(x, s[1..]);
    }
  }

  lemma {:induction false} NormalOfOutputs(run: seq<Item>, rest: seq<Item>)
    requires forall y :: y in run ==> y.output
    requires rest != [] ==> !rest[0].output
    ensures Normal(run + rest) == Normal(run) + Normal(rest)
    ensures forall y :: y in Normal(run) ==> y.output
    decreases |run|
  {
    if run == [] {
      assert run + rest == rest;
    } else {
      assert (run + rest)[1..] == run[1..] + rest;
      NormalOfOutputs(run[1..], rest);
      PlaceMembers(run[0], Normal(run[1..]));
      assert Normal(rest) != [] ==> !Normal(rest)[0].output;
      PlacedInRun(run[0], Normal(run[1..]), Normal(rest));
    }
  }

  lemma {:induction false} NormalOfOthers(run: seq<Item>, rest: seq<Item>)
    requires forall y :: y in run ==> !y.output
    ensures Normal(run + rest) == run + Normal(rest)
    decreases |run|
  {
    if run == [] {
      assert run + rest == rest;
    } else {
      assert (run + rest)[1..] == run[1..] + rest;
      NormalOfOthers(run[1..], rest);
    }
  }

  method SortByDump(batch: seq<Item>) returns (sorted: seq<Item>)
    requires forall x :: x in batch ==> x.output
    ensures sorted == Normal(batch)
  {
    sorted := [];
    for i := |batch| downto 0
      invariant sorted == Normal(batch[i..])
    {
      assert batch[i..][1..] == batch[i + 1..];
      sorted := Place(batch[i], sorted);
    }
  }

  lemma Associates(a: seq<Item>, b: seq<Item>, c: seq<Item>)
    ensures a + (b + c) == (a + b) + c
  {
  }

  // A maximal run is normalized on its own.
  lemma NormalOfRun(items: seq<Item>, i: nat, j: nat)
    requires i < j <= |items| && forall k :: i <= k < j ==> items[k].output == items[i].output
    requires j < |items| ==> items[j].output != items[i].output
    ensures Normal(items[i..]) == (if items[i].output then Normal(items[i..j]) else items[i..j]) + Normal(items[j..])
  {
    assert items[i..] == items[i..j] + items[j..];
    if items[i].output {
      NormalOfOutputs(items[i..j], items[j..]);
    } else {
      NormalOfOthers(items[i..j], items[j..]);
    }
  }

  method NormalizeInput(items: seq<Item>) returns (inputs: seq<Item>)
    ensures inputs == Normal(items)
  {
    inputs := [];
    var i := 0;
    while i < |items|
      invariant 0 <= i <= |items|
      invariant inputs + Normal(items[i..]) == Normal(items)
    {
      var j := i + 1;
      while j < |items| && items[j].output == items[i].output
        invariant i < j <= |items|
        invariant forall k :: i <= k < j ==> items[k].output == items[i].output
      {
        j := j + 1;
      }
      var batch := items[i..j];
      NormalOfRun(items, i, j);
      if items[i].output {
        batch := SortByDump(batch);
      }
      Associates(inputs, batch, Normal(items[j..]));
      inputs := inputs + batch;
      i := j;
    }
  }

  method Normalize(request: Request) returns (r: Request)
    ensures r == NormalRequest(request)
  {
    r := request;
    if request.input.List? {
      var inputs := NormalizeInput(request.input.items);
      r := request.(input := List(inputs));
    }
  }

  /** Normalizes each request and appends it to its conversation. */
  method RequestsByConversation(requests: seq<Request>) returns (grouped: map<string, seq<Request>>)
    ensures grouped == Grouped(requests)
  {
    grouped := map[];
    for n := 0 to |requests|
      invariant grouped == Grouped(requests[..n])
    {
      var r := Normalize(requests[n]);
      GroupedGrows(requests[..n], requests[n]);
      assert requests[..n + 1] == requests[..n] + [requests[n]];
      grouped := Appended(grouped, r.user, r);
    }
    assert requests[..|requests|] == requests;
  }

  // What a dictionary of lists becomes when one value is appended.
  function Appended(grouped: map<string, seq<Request>>, user: string, r: Request): map<string, seq<Request>> {
    grouped[user := (if user in grouped then grouped[user] else []) + [r]]
  }

  lemma GroupedGrowsAt(before: seq<Request>, r: Request, user: string)
    ensures SameAt(Grouped(before + [r]), Appended(Grouped(before), r.user, NormalRequest(r)), user)
  {
    var after := before + [r];
    assert after[..|before|] == before;
    ConversationMembers(before, user);
    ConversationMembers(after, user);
    assert NormalRequests(Conversation(before, user) + [r]) == NormalRequests(Conversation(before, user)) + [NormalRequest(r)];
    assert Conversation(before, user) == [] ==> NormalRequests(Conversation(before, user)) == [];
  }

  lemma GroupedGrows(before: seq<Request>, r: Request)
    ensures Grouped(before + [r]) == Appended(Grouped(before), r.user, NormalRequest(r))
  {
    forall user ensures SameAt(Grouped(before + [r]), Appended(Grouped(before), r.user, NormalRequest(r)), user) {
      GroupedGrowsAt(before, r, user);
    }
    MapsMatch(Grouped(before + [r]), Appended(Grouped(before), r.user, NormalRequest(r)));
  }
}
