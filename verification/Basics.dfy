/** Small shared vocabulary: optional values and whitespace trimming. */
module Basics {
  datatype Option<+T> = None | Some(value: T)

  predicate IsSpace(c: char) {
    c == ' ' || '\t' <= c <= '\r'
  }

  function StripLeft(s: string): string {
    if s != "" && IsSpace(s[0]) then StripLeft(s[1..]) else s
  }

  function StripRight(s: string): string {
    if s != "" && IsSpace(s[|s| - 1]) then StripRight(s[..|s| - 1]) else s
  }

  /** The text without its leading and trailing white space. */
  function Strip(s: string): string {
    StripRight(StripLeft(s))
  }

  lemma {:induction false} StripLeftClean(s: string)
    ensures StripLeft(s) != "" ==> !IsSpace(StripLeft(s)[0])
  {
    if s != "" && IsSpace(s[0]) {
      StripLeftClean(s[1..]);
    }
  }

  lemma {:induction false} StripRightClean(s: string)
    ensures StripRight(s) <= s
    ensures StripRight(s) != "" ==> !IsSpace(StripRight(s)[|StripRight(s)| - 1])
  {
    if s != "" && IsSpace(s[|s| - 1]) {
      StripRightClean(s[..|s| - 1]);
    }
  }

  /** Trimming twice is trimming once, so a stored key is always its own trimmed form. */
  lemma StripTwice(s: string)
    ensures Strip(Strip(s)) == Strip(s)
  {
    StripLeftClean(s);
    StripRightClean(StripLeft(s));
    var t := Strip(s);
    assert t != "" ==> t[0] == StripLeft(s)[0];
    assert StripLeft(t) == t;
  }

  lemma {:induction false} LeftDrops(a: string, u: string)
    requires forall i | 0 <= i < |a| :: IsSpace(a[i])
    ensures StripLeft(a + u) == StripLeft(u)
  {
    if a == "" {
      assert a + u == u;
    } else {
      LeftDrops(a[1..], u);
      assert (a + u)[1..] == a[1..] + u;
    }
  }

  lemma {:induction false} RightDrops(u: string, b: string)
    requires forall i | 0 <= i < |b| :: IsSpace(b[i])
    ensures StripRight(u + b) == StripRight(u)
  {
    if b == "" {
      assert u + b == u;
    } else {
      RightDrops(u, b[..|b| - 1]);
      assert (u + b)[..|u + b| - 1] == u + b[..|b| - 1];
    }
  }

  ghost predicate Blank(s: string) {
    forall i | 0 <= i < |s| :: s[i] == ' ' || 9 <= s[i] as int <= 13
  }

  /** Trimming takes off all white space around a text that has none at its own ends, and no more. */
  lemma StripExactly(a: string, t: string, b: string)
    requires Blank(a) && Blank(b)
    requires t != "" ==> !Blank(t[..1]) && !Blank(t[|t| - 1..])
    ensures Strip(a + t + b) == t
  {
    assert a + t + b == a + (t + b);
    LeftDrops(a, t + b);
    if t == "" {
      LeftDrops(b, "");
      assert t + b == b && b + "" == b;
    } else {
      assert !IsSpace((t + b)[0]) && !IsSpace(t[|t| - 1]);
      RightDrops(t, b);
    }
  }
}
