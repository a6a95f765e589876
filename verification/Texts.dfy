/** Surrounding white space of ASCII texts, as Python strips it. */
module Texts {
  predicate IsSpace(c: char) { c in " \t\n\r" || c as int == 11 || c as int == 12 }

  function StripLeft(s: string): string
    decreases |s|
  {
    if s != "" && IsSpace(s[0]) then StripLeft(s[1..]) else s
  }

  function StripRight(s: string): string
    decreases |s|
  {
    if s != "" && IsSpace(s[|s| - 1]) then StripRight(s[..|s| - 1]) else s
  }

  function Strip(s: string): string { StripRight(StripLeft(s)) }

  lemma {:induction false} StripIsInfix(s: string) returns (a: string, b: string)
    ensures s == a + Strip(s) + b
    ensures forall c :: c in a + b ==> IsSpace(c)
  {
    a := StripLeftIsSuffix(s);
    b := StripRightIsPrefix(StripLeft(s));
    assert s == a + (Strip(s) + b);
  }

  lemma {:induction false} StripLeftIsSuffix(s: string) returns (a: string)
    ensures s == a + StripLeft(s) && forall c :: c in a ==> IsSpace(c)
    decreases |s|
  {
    if s != "" && IsSpace(s[0]) {
      var t := StripLeftIsSuffix(s[1..]);
      a := [s[0]] + t;
    } else {
      a := "";
    }
  }

  lemma {:induction false} StripRightIsPrefix(s: string) returns (b: string)
    ensures s == StripRight(s) + b && forall c :: c in b ==> IsSpace(c)
    decreases |s|
  {
    if s != "" && IsSpace(s[|s| - 1]) {
      var t := StripRightIsPrefix(s[..|s| - 1]);
      b := t + [s[|s| - 1]];
    } else {
      b := "";
    }
  }

  predicate AllSpace(s: string) { forall c :: c in s ==> IsSpace(c) }

  predicate Trimmed(s: string) { s == "" || (!IsSpace(s[0]) && !IsSpace(s[|s| - 1])) }

  /** Stripping takes away all surrounding space, and nothing else. */
  lemma StripIs(a: string, m: string, b: string)
    requires AllSpace(a) && AllSpace(b) && Trimmed(m)
    ensures Strip(a + m + b) == m
  {
    StripLeftDrops(a, m + b);
    assert a + m + b == a + (m + b);
    if m == "" {
      assert m + b == b + "";
      StripLeftDrops(b, "");
    } else {
      assert StripLeft(m + b) == m + b;
      StripRightDrops(m, b);
    }
  }

  lemma {:induction false} StripLeftDrops(a: string, s: string)
    requires AllSpace(a)
    ensures StripLeft(a + s) == StripLeft(s)
    decreases |a|
  {
    if a == "" {
      assert a + s == s;
    } else {
      assert a[0] in a && (a + s)[1..] == a[1..] + s;
      assert forall c :: c in a[1..] ==> c in a;
      StripLeftDrops(a[1..], s);
    }
  }

  lemma {:induction false} StripRightDrops(s: string, b: string)
    requires AllSpace(b)
    ensures StripRight(s + b) == StripRight(s)
    decreases |b|
  {
    if b == "" {
      assert s + b == s;
    } else {
      var n := |b| - 1;
      assert b[n] in b && (s + b)[..|s + b| - 1] == s + b[..n] && (s + b)[|s + b| - 1] == b[n];
      assert forall c :: c in b[..n] ==> c in b;
      StripRightDrops(s, b[..n]);
    }
  }

  lemma {:induction false} StripRightTrims(s: string)
    ensures StripRight(s) == "" || !IsSpace(StripRight(s)[|StripRight(s)| - 1])
    ensures StripRight(s) != "" ==> StripRight(s)[0] == s[0]
    decreases |s|
  {
    if s != "" && IsSpace(s[|s| - 1]) {
      StripRightTrims(s[..|s| - 1]);
    }
  }

  lemma {:induction false} StripLeftTrims(s: string)
    ensures StripLeft(s) == "" || !IsSpace(StripLeft(s)[0])
    decreases |s|
  {
    if s != "" && IsSpace(s[0]) {
      StripLeftTrims(s[1..]);
    }
  }

  /** Every text is a trimmed one with space around it. */
  lemma Trimming(s: string) returns (a: string, m: string, b: string)
    ensures s == a + m + b && AllSpace(a) && AllSpace(b) && Trimmed(m) && m == Strip(s)
  {
    a, b := StripIsInfix(s);
    m := Strip(s);
    StripLeftTrims(s);
    StripRightTrims(StripLeft(s));
    assert forall c :: c in a ==> c in a + b;
    assert forall c :: c in b ==> c in a + b;
  }
}
