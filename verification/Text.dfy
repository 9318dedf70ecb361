/** Ticket keys and the few string operations the program applies to names. */
module Text {

  /** A Jira ticket key. */
  datatype Key = Key(name: string)

  /** The `<` of two strings. */
  predicate LexLess(a: string, b: string) {
    if b == [] then false
    else if a == [] then true
    else if a[0] != b[0] then a[0] < b[0]
    else LexLess(a[1..], b[1..])
  }

  lemma {:induction false} LexLessIsTotal(a: string, b: string)
    ensures a == b || LexLess(a, b) || LexLess(b, a)
    ensures !(LexLess(a, b) && LexLess(b, a))
  {
    if a != [] && b != [] && a[0] == b[0] {
      LexLessIsTotal(a[1..], b[1..]);
      assert a[1..] == b[1..] ==> a == [a[0]] + a[1..] == b;
    }
  }

  lemma {:induction false} LexLessTransitive(a: string, b: string, c: string)
    requires LexLess(a, b) && LexLess(b, c)
    ensures LexLess(a, c)
    decreases |a|
  {
    if a != [] && a[0] == b[0] == c[0] {
      LexLessTransitive(a[1..], b[1..], c[1..]);
    }
  }

  /** The strings agree before `k`, and there the first one ends or has the smaller character. */
  predicate SmallerAt(a: string, b: string, k: nat) {
    k <= |a| && k < |b| && a[..k] == b[..k] && (k == |a| || a[k] < b[k])
  }

  lemma {:induction false} LexLessMeans(a: string, b: string)
    ensures LexLess(a, b) <==> exists k: nat :: SmallerAt(a, b, k)
  {
    if a == [] || b == [] || a[0] != b[0] {
      assert LexLess(a, b) ==> SmallerAt(a, b, 0);
    } else {
      LexLessMeans(a[1..], b[1..]);
      if k: nat :| SmallerAt(a[1..], b[1..], k) {
        assert a[..k + 1] == [a[0]] + a[1..][..k] && b[..k + 1] == [b[0]] + b[1..][..k];
        assert SmallerAt(a, b, k + 1);
      }
      if k: nat :| SmallerAt(a, b, k) {
        assert k > 0 && a[1..][..k - 1] == a[..k][1..] && b[1..][..k - 1] == b[..k][1..];
        assert SmallerAt(a[1..], b[1..], k - 1);
      }
    }
  }

  /** The characters `trim()` removes: white space and line terminators of ECMAScript. */
  predicate Blank(c: char) {
    || c == ' ' || c == '\t' || c == '\n' || c == '\r' || c == '\U{0B}' || c == '\U{0C}' || c == '\U{A0}' || c == '\U{FEFF}'
    || c == '\U{1680}' || '\U{2000}' <= c <= '\U{200A}' || c == '\U{2028}' || c == '\U{2029}' || c == '\U{202F}' || c == '\U{205F}'
    || c == '\U{3000}'
  }

  /** `trim()`. */
  function Trim(s: string): (r: string)
    ensures r == [] || (!Blank(r[0]) && !Blank(r[|r| - 1]))
    decreases |s|
  {
    if s == [] then []
    else if Blank(s[0]) then Trim(s[1..])
    else if Blank(s[|s| - 1]) then Trim(s[..|s| - 1])
    else s
  }

  /** `core` is `s` without its first `i` and last `k` characters, all blank. */
  predicate BlankAround(s: string, core: string, i: nat, k: nat) {
    && i + k <= |s| && core == s[i..|s| - k]
    && (forall n | 0 <= n < i :: Blank(s[n])) && forall n | |s| - k <= n < |s| :: Blank(s[n])
  }

  lemma BlankFirst(s: string, core: string, i: nat, k: nat)
    requires s != [] && Blank(s[0]) && BlankAround(s[1..], core, i, k)
    ensures BlankAround(s, core, i + 1, k)
  {
    assert forall n | 0 < n < |s| :: s[n] == s[1..][n - 1];
  }

  lemma BlankLast(s: string, core: string, i: nat, k: nat)
    requires s != [] && Blank(s[|s| - 1]) && BlankAround(s[..|s| - 1], core, i, k)
    ensures BlankAround(s, core, i, k + 1)
  {
    assert forall n | 0 <= n < |s| - 1 :: s[n] == s[..|s| - 1][n];
  }

  /** Trimming removes blank characters at the two ends only; that it removes all of them is its own contract. */
  lemma {:induction false} TrimIsTheCore(s: string)
    ensures exists i: nat, k: nat :: BlankAround(s, Trim(s), i, k)
    decreases |s|
  {
    if s != [] && Blank(s[0]) {
      TrimIsTheCore(s[1..]);
      var i: nat, k: nat :| BlankAround(s[1..], Trim(s[1..]), i, k);
      BlankFirst(s, Trim(s), i, k);
    } else if s != [] && Blank(s[|s| - 1]) {
      TrimIsTheCore(s[..|s| - 1]);
      var i: nat, k: nat :| BlankAround(s[..|s| - 1], Trim(s[..|s| - 1]), i, k);
      BlankLast(s, Trim(s), i, k);
    } else {
      assert BlankAround(s, Trim(s), 0, 0);
    }
  }

  /**
   * `toLowerCase()` of one character, as far as a test against `a`..`z` can tell: the two letters
   * outside ASCII whose lower case contains an ASCII letter are spelled out, the others stand for
   * themselves.
   */
  function LowerChar(c: char): string {
    if 'A' <= c <= 'Z' then [(c as int - 'A' as int + 'a' as int) as char]
    else if c == '\U{212A}' then "k"
    else if c == '\U{130}' then ['i', '\U{307}']
    else [c]
  }

  function Lower(s: string): string {
    if s == [] then [] else LowerChar(s[0]) + Lower(s[1..])
  }

  /** The characters that have a lower-case form to a test against `a`..`z`. */
  predicate Capital(c: char) {
    'A' <= c <= 'Z' || c == '\U{212A}' || c == '\U{130}'
  }

  /** A text is its own lower case exactly when no character in it is a capital. */
  lemma {:induction false} LowerIsFixedIff(s: string)
    ensures |Lower(s)| >= |s|
    ensures Lower(s) == s <==> forall i | 0 <= i < |s| :: !Capital(s[i])
  {
    if s != [] {
      LowerIsFixedIff(s[1..]);
      var first, rest := LowerChar(s[0]), Lower(s[1..]);
      assert Lower(s) == first + rest;
      if |first| == 1 {
        assert first == Lower(s)[..1] && rest == Lower(s)[1..];
        assert s == [s[0]] + s[1..];
      }
    }
  }

  /** One character is the other or its capital. */
  predicate SameLetter(a: char, b: char) {
    a == b || ('A' <= a <= 'Z' && b as int == a as int + 32) || ('A' <= b <= 'Z' && a as int == b as int + 32)
  }

  /** Plain text has the same lower case exactly when it differs in the case of its letters only. */
  lemma {:induction false} LowerIgnoresExactlyCase(a: string, b: string)
    requires forall i | 0 <= i < |a| :: a[i] != '\U{212A}' && a[i] != '\U{130}'
    requires forall i | 0 <= i < |b| :: b[i] != '\U{212A}' && b[i] != '\U{130}'
    ensures |Lower(a)| == |a| && |Lower(b)| == |b|
    ensures Lower(a) == Lower(b) <==> |a| == |b| && forall i | 0 <= i < |a| :: SameLetter(a[i], b[i])
  {
    PlainLength(a);
    PlainLength(b);
    if a != [] && b != [] {
      LowerIgnoresExactlyCase(a[1..], b[1..]);
      assert Lower(a)[..1] == LowerChar(a[0]) && Lower(a)[1..] == Lower(a[1..]);
      assert Lower(b)[..1] == LowerChar(b[0]) && Lower(b)[1..] == Lower(b[1..]);
      assert LowerChar(a[0]) == LowerChar(b[0]) <==> SameLetter(a[0], b[0]);
      assert Lower(a) == LowerChar(a[0]) + Lower(a[1..]) && Lower(b) == LowerChar(b[0]) + Lower(b[1..]);
    }
  }

  lemma {:induction false} PlainLength(s: string)
    requires forall i | 0 <= i < |s| :: s[i] != '\U{212A}' && s[i] != '\U{130}'
    ensures |Lower(s)| == |s|
  {
    if s != [] {
      PlainLength(s[1..]);
    }
  }
}
