/** The string operations that keys are built with. */
module Text {
  predicate IsSpace(c: char) {
    c in " \t\n\r" || '\U{0b}' <= c <= '\U{0c}' || '\U{1c}' <= c <= '\U{1f}'
  }

  function StripLeft(s: string): string {
    if s != "" && IsSpace(s[0]) then StripLeft(s[1..]) else s
  }

  function StripRight(s: string): string {
    if s != "" && IsSpace(s[|s| - 1]) then StripRight(s[..|s| - 1]) else s
  }

  /** Python's `str.strip()` on the ASCII white space. */
  function Strip(s: string): string {
    StripRight(StripLeft(s))
  }

  predicate Trimmed(s: string) {
    s != "" ==> !IsSpace(s[0]) && !IsSpace(s[|s| - 1])
  }

  lemma {:induction false} StripRightKeepsFront(s: string)
    ensures |StripRight(s)| <= |s|
    ensures StripRight(s) == s[..|StripRight(s)|]
    ensures StripRight(s) != "" ==> !IsSpace(StripRight(s)[|StripRight(s)| - 1])
  {
    if s != "" && IsSpace(s[|s| - 1]) {
      StripRightKeepsFront(s[..|s| - 1]);
    }
  }

  lemma {:induction false} StripLeftStops(s: string)
    ensures StripLeft(s) != "" ==> !IsSpace(StripLeft(s)[0])
  {
    if s != "" && IsSpace(s[0]) {
      StripLeftStops(s[1..]);
    }
  }

  /** The trimmed texts are exactly the fixed points of `Strip`, and stripping always reaches one. */
  lemma StripCharacterised(s: string)
    ensures Trimmed(Strip(s))
    ensures Strip(Strip(s)) == Strip(s)
    ensures Trimmed(s) <==> Strip(s) == s
  {
    StripLeftStops(s);
    StripRightKeepsFront(StripLeft(s));
  }

  /** The characters are the same letter, upper or lower case, or the same. */
  predicate SameLetter(c: char, d: char) {
    c == d || ('A' <= c <= 'Z' && d as int == c as int + 32) || ('A' <= d <= 'Z' && c as int == d as int + 32)
  }

  predicate DifferInCaseOnly(s: string, t: string) {
    |s| == |t| && forall i | 0 <= i < |s| :: SameLetter(s[i], t[i])
  }

  predicate ColonFree(s: string) {
    ':' !in s
  }

  /** A prefix without the separator is read back from the joined text. */
  lemma SplitAtFirst(a: string, b: string, x: string, y: string, separator: char)
    requires separator !in a && separator !in b
    requires a + [separator] + x == b + [separator] + y
    ensures a == b && x == y
  {
    var joined := a + [separator] + x;
    assert joined == b + [separator] + y;
    assert joined[|a|] == separator && joined[|b|] == separator;
    assert forall i | 0 <= i < |a| :: joined[i] == a[i] != separator;
    assert forall i | 0 <= i < |b| :: joined[i] == b[i] != separator;
    assert |a| == |b|;
    assert a == joined[..|a|] && b == joined[..|b|];
    assert x == joined[|a| + 1..] && y == joined[|b| + 1..];
  }

  /** A suffix without the separator is read back from the joined text. */
  lemma SplitAtLast(a: string, b: string, x: string, y: string, separator: char)
    requires separator !in x && separator !in y
    requires a + [separator] + x == b + [separator] + y
    ensures a == b && x == y
  {
    var joined := a + [separator] + x;
    assert joined == b + [separator] + y;
    assert joined[|a|] == separator && joined[|b|] == separator;
    assert forall i | |a| < i < |joined| :: joined[i] == x[i - |a| - 1] != separator;
    assert forall i | |b| < i < |joined| :: joined[i] == y[i - |b| - 1] != separator;
    assert |a| == |b|;
    assert a == joined[..|a|] && b == joined[..|b|];
    assert x == joined[|a| + 1..] && y == joined[|b| + 1..];
  }
}
