/**
 * Agent keys: the slug of a persona and role, and the smallest numeric suffix that makes it
 * unique in a workspace.
 */
module AgentKey {
  import opened FiniteSets
  import opened Text
  import opened Wrappers

  const RESERVED: set<string> := {"brigadir"}

  predicate Alnum(c: char) {
    'a' <= c <= 'z' || '0' <= c <= '9'
  }

  // ---------- the slug, as the program computes it ----------

  /** Every maximal run of other characters becomes one dash; `inRun`: its dash is already written. */
  function Collapse(s: string, inRun: bool): string {
    if s == [] then []
    else if Alnum(s[0]) then [s[0]] + Collapse(s[1..], false)
    else (if inRun then "" else "-") + Collapse(s[1..], true)
  }

  function StripLeft(s: string): string {
    if s != [] && s[0] == '-' then StripLeft(s[1..]) else s
  }

  function StripRight(s: string): string {
    if s != [] && s[|s| - 1] == '-' then StripRight(s[..|s| - 1]) else s
  }

  function RawSlug(input: string): string {
    StripRight(StripLeft(Collapse(Lower(input), false)))
  }

  function SlugifyAgentKey(name: string, role: Option<string>): string {
    var roleText := if role.Some? then role.value else "";
    var combined := RawSlug(name + " " + roleText);
    if combined != "" then combined
    else
      var roleOnly := RawSlug(roleText);
      if roleOnly != "" then roleOnly else "agent"
  }

  // ---------- what a slug is: the words of the text, joined by dashes ----------

  /** The length of the leading word. */
  function Span(s: string): (k: nat)
    ensures k <= |s| && (forall i | 0 <= i < k :: Alnum(s[i])) && (k < |s| ==> !Alnum(s[k]))
  {
    if s != [] && Alnum(s[0]) then 1 + Span(s[1..]) else 0
  }

  function Words(s: string): seq<string>
    decreases |s|
  {
    if s == [] then []
    else if !Alnum(s[0]) then Words(s[1..])
    else [s[..Span(s)]] + Words(s[Span(s)..])
  }

  function Join(words: seq<string>): string {
    if words == [] then ""
    else if |words| == 1 then words[0]
    else words[0] + "-" + Join(words[1..])
  }

  predicate IsWord(w: string) {
    w != "" && forall i | 0 <= i < |w| :: Alnum(w[i])
  }

  predicate AreWords(words: seq<string>) {
    forall i | 0 <= i < |words| :: IsWord(words[i])
  }

  lemma {:induction false} WordsAreWords(s: string)
    ensures AreWords(Words(s))
    ensures Words(s) == [] && s != [] ==> !Alnum(s[|s| - 1])
    decreases |s|
  {
    if s != [] {
      WordsAreWords(if Alnum(s[0]) then s[Span(s)..] else s[1..]);
    }
  }

  lemma {:induction false} CollapseSpan(s: string, inRun: bool)
    requires s != [] && Alnum(s[0])
    ensures Collapse(s, inRun) == s[..Span(s)] + Collapse(s[Span(s)..], false)
    decreases |s|
  {
    var rest := s[1..];
    var k := Span(rest);
    if k > 0 {
      CollapseSpan(rest, false);
    } else {
      assert rest[..0] == [] && rest[0..] == rest;
    }
    PrefixGrows(s, k, Collapse(rest[k..], false));
  }

  lemma PrefixGrows(s: string, k: nat, tail: string)
    requires k < |s|
    ensures [s[0]] + (s[1..][..k] + tail) == s[..k + 1] + tail && s[1..][k..] == s[k + 1..]
  {
    assert [s[0]] + s[1..][..k] == s[..k + 1];
  }

  /** The dash a text leaves behind when it has words but does not end in one. */
  function TrailingDash(s: string): string {
    if Words(s) != [] && !Alnum(s[|s| - 1]) then "-" else ""
  }

  lemma JoinCons(word: string, words: seq<string>, tail: string)
    requires words != []
    ensures word + ("-" + (Join(words) + tail)) == Join([word] + words) + tail
  {
    assert ([word] + words)[1..] == words;
    assert Join([word] + words) == word + "-" + Join(words);
  }

  /** Inside a run, collapsing joins the words that follow. */
  lemma {:induction false} CollapseJoins(s: string)
    ensures Collapse(s, true) == Join(Words(s)) + TrailingDash(s)
    decreases |s|, 1
  {
    if s == [] {
    } else if !Alnum(s[0]) {
      CollapseJoins(s[1..]);
      assert |s| > 1 ==> s[1..][|s| - 2] == s[|s| - 1];
    } else {
      var word, rest := s[..Span(s)], s[Span(s)..];
      CollapseSpan(s, true);
      if rest == [] {
        assert word == s && Words(s) == [s] + [] && Collapse(s, true) == s + [];
      } else {
        WordThenRun(word, rest);
        assert rest[|rest| - 1] == s[|s| - 1];
      }
    }
  }

  lemma RunOpensWithADash(rest: string)
    requires rest != [] && !Alnum(rest[0])
    ensures Collapse(rest, false) == "-" + Collapse(rest, true)
  {
  }

  lemma WordThenRun(word: string, rest: string)
    requires rest != [] && !Alnum(rest[0])
    ensures word + Collapse(rest, false) == Join([word] + Words(rest)) + if Alnum(rest[|rest| - 1]) then "" else "-"
    decreases |rest|, 2
  {
    CollapseJoins(rest);
    WordsAreWords(rest);
    RunOpensWithADash(rest);
    AssembleWord(word, Words(rest), TrailingDash(rest));
  }

  lemma AssembleWord(word: string, words: seq<string>, tail: string)
    requires words == [] ==> tail == ""
    ensures word + ("-" + (Join(words) + tail)) == Join([word] + words) + if words == [] then "-" else tail
  {
    if words == [] {
      assert [word] + words == [word];
    } else {
      JoinCons(word, words, tail);
    }
  }

  lemma {:induction false} JoinEdges(words: seq<string>)
    requires AreWords(words) && words != []
    ensures var r := Join(words); r != "" && Alnum(r[0]) && Alnum(r[|r| - 1])
  {
    if |words| > 1 {
      JoinEdges(words[1..]);
    }
  }

  lemma StripEdges(r: string)
    requires r != "" && Alnum(r[0]) && Alnum(r[|r| - 1])
    ensures StripLeft(r) == r && StripLeft("-" + r) == r && StripLeft("-" + (r + "-")) == r + "-" && StripLeft(r + "-") == r + "-"
    ensures StripRight(r) == r && StripRight(r + "-") == r
  {
    assert ("-" + r)[1..] == r;
    assert (r + "-")[..|r|] == r;
    assert ("-" + (r + "-"))[1..] == r + "-";
  }

  /** Trimming takes off the dashes a run at either end has left. */
  lemma StripBoth(words: seq<string>, lead: string, tail: string)
    requires AreWords(words) && lead in {"", "-"} && tail in {"", "-"} && (words == [] ==> tail == "")
    ensures StripRight(StripLeft(lead + (Join(words) + tail))) == Join(words)
  {
    var r := Join(words);
    assert r + "" == r && "" + (r + tail) == r + tail;
    if words != [] {
      JoinEdges(words);
      StripEdges(r);
    } else {
      assert "-"[1..] == "";
    }
  }

  /** The three replacements compute the dash-join of the lower-cased text's words. */
  lemma SlugIsJoinedWords(input: string)
    ensures RawSlug(input) == Join(Words(Lower(input)))
  {
    var s := Lower(input);
    WordsAreWords(s);
    CollapseJoins(s);
    var lead := if s != [] && !Alnum(s[0]) then "-" else "";
    assert Collapse(s, false) == lead + Collapse(s, true);
    StripBoth(Words(s), lead, TrailingDash(s));
  }

  lemma {:induction false} WordsOfPrefixed(w: string, rest: string)
    requires IsWord(w)
    ensures Span(w + "-" + rest) == |w| && Span(w) == |w|
    decreases |w|
  {
    assert (w + "-" + rest)[1..] == w[1..] + "-" + rest;
    if |w| > 1 {
      WordsOfPrefixed(w[1..], rest);
    }
  }

  /** Reading a join back gives the words: a slug determines them. */
  lemma {:induction false} WordsOfJoin(words: seq<string>)
    requires AreWords(words)
    ensures Words(Join(words)) == words
  {
    if |words| > 0 {
      var w, more := words[0], words[1..];
      WordsOfPrefixed(w, if more == [] then "" else Join(more));
      if more == [] {
        assert w[|w|..] == [] && w[..|w|] == w;
      } else {
        var s := Join(words);
        WordsOfJoin(more);
        assert s == w + "-" + Join(more) && s[|w|..] == "-" + Join(more) && s[..|w|] == w;
        assert ("-" + Join(more))[1..] == Join(more);
      }
    }
  }

  // ---------- laws of the slug ----------

  /** Empty, or groups of lower-case letters and digits joined by single dashes. */
  predicate SlugShaped(r: string) {
    AreWords(Words(r)) && r == Join(Words(r))
  }

  lemma {:induction false} LowerKeepsSlugs(words: seq<string>)
    requires AreWords(words)
    ensures Lower(Join(words)) == Join(words)
  {
    if |words| > 1 {
      LowerKeepsSlugs(words[1..]);
      LowerKeepsWord(words[0]);
      LowerAppends(words[0] + "-", Join(words[1..]));
      LowerAppends(words[0], "-");
      assert Lower("-") == "-" by { assert "-"[1..] == ""; }
    } else if |words| == 1 {
      LowerKeepsWord(words[0]);
    }
  }

  lemma {:induction false} LowerKeepsWord(w: string)
    requires forall i | 0 <= i < |w| :: Alnum(w[i])
    ensures Lower(w) == w
  {
    if w != [] {
      LowerKeepsWord(w[1..]);
    }
  }

  lemma {:induction false} LowerAppends(a: string, b: string)
    ensures Lower(a + b) == Lower(a) + Lower(b)
  {
    if a == [] {
      assert a + b == b;
    } else {
      LowerAppends(a[1..], b);
      assert (a + b)[1..] == a[1..] + b;
    }
  }

  /** Slugs have the slug shape, and slugging one changes nothing. */
  lemma SlugIsShapedAndIdempotent(input: string)
    ensures SlugShaped(RawSlug(input))
    ensures RawSlug(RawSlug(input)) == RawSlug(input)
  {
    var words := Words(Lower(input));
    SlugIsJoinedWords(input);
    WordsAreWords(Lower(input));
    WordsOfJoin(words);
    LowerKeepsSlugs(words);
    SlugIsJoinedWords(RawSlug(input));
  }

  lemma FirstWordSplitsOff(a: string, b: string)
    requires a != [] && Alnum(a[0])
    ensures Words(a + " " + b) == [a[..Span(a)]] + Words(a[Span(a)..] + " " + b)
  {
    var s := a + " " + b;
    SpanStopsAtBlank(a, b);
    assert s[Span(a)..] == a[Span(a)..] + " " + b && s[..Span(a)] == a[..Span(a)];
  }

  lemma {:induction false} WordsSplitAtBlank(a: string, b: string)
    ensures Words(a + " " + b) == Words(a) + Words(b)
    decreases |a|
  {
    if a == [] {
      assert ([] + " " + b)[1..] == b;
    } else if !Alnum(a[0]) {
      WordsSplitAtBlank(a[1..], b);
      assert (a + " " + b)[1..] == a[1..] + " " + b;
    } else {
      FirstWordSplitsOff(a, b);
      WordsSplitAtBlank(a[Span(a)..], b);
    }
  }

  lemma {:induction false} SpanStopsAtBlank(a: string, b: string)
    ensures Span(a + " " + b) == Span(a)
  {
    if a != [] {
      SpanStopsAtBlank(a[1..], b);
      assert (a + " " + b)[1..] == a[1..] + " " + b;
    }
  }

  lemma {:induction false} JoinAppends(u: seq<string>, v: seq<string>)
    ensures Join(u + v) == if u == [] then Join(v) else if v == [] then Join(u) else Join(u) + "-" + Join(v)
  {
    if u == [] {
      assert u + v == v;
    } else if v == [] {
      assert u + v == u;
    } else {
      JoinAppends(u[1..], v);
      assert (u + v)[1..] == u[1..] + v;
    }
  }

  lemma JoinedEmpty(words: seq<string>)
    requires AreWords(words)
    ensures Join(words) == "" <==> words == []
  {
    if words != [] {
      JoinEdges(words);
    }
  }

  /** The slug of two texts is the dash-join of their non-empty slugs. */
  lemma SlugOfTwo(a: string, b: string)
    ensures RawSlug(a + " " + b) ==
            if RawSlug(a) == "" then RawSlug(b) else if RawSlug(b) == "" then RawSlug(a) else RawSlug(a) + "-" + RawSlug(b)
  {
    SlugIsJoinedWords(a);
    SlugIsJoinedWords(b);
    SlugIsJoinedWords(a + " " + b);
    LowerAppends(a + " ", b);
    LowerAppends(a, " ");
    assert Lower(" ") == " " by { assert " "[1..] == ""; }
    var u, v := Words(Lower(a)), Words(Lower(b));
    WordsSplitAtBlank(Lower(a), Lower(b));
    JoinAppends(u, v);
    WordsAreWords(Lower(a));
    WordsAreWords(Lower(b));
    JoinedEmpty(u);
    JoinedEmpty(v);
  }

  /** A text without its dashes. */
  function Undashed(s: string): string {
    if s == [] then [] else if s[0] == '-' then Undashed(s[1..]) else [s[0]] + Undashed(s[1..])
  }

  /** The characters of a text that are lower-case letters or digits. */
  function LettersAndDigits(s: string): string {
    if s == [] then []
    else if 'a' <= s[0] <= 'z' || '0' <= s[0] <= '9' then [s[0]] + LettersAndDigits(s[1..])
    else LettersAndDigits(s[1..])
  }

  lemma {:induction false} CollapseKeepsLetters(s: string, inRun: bool)
    ensures Undashed(Collapse(s, inRun)) == LettersAndDigits(s)
  {
    if s != [] {
      var rest := Collapse(s[1..], !Alnum(s[0]));
      CollapseKeepsLetters(s[1..], !Alnum(s[0]));
      if Alnum(s[0]) {
        assert ([s[0]] + rest)[1..] == rest;
      } else {
        assert ("-" + rest)[1..] == rest && "" + rest == rest;
      }
    }
  }

  lemma {:induction false} UndashedAppends(a: string, b: string)
    ensures Undashed(a + b) == Undashed(a) + Undashed(b)
  {
    if a == [] {
      assert a + b == b;
    } else {
      var more := a[1..];
      UndashedAppends(more, b);
      assert (a + b)[1..] == more + b;
      Associates([a[0]], Undashed(more), Undashed(b));
    }
  }

  lemma Associates(x: string, y: string, z: string)
    ensures x + (y + z) == (x + y) + z
  {
  }

  lemma {:induction false} StripLeftKeepsLetters(s: string)
    ensures Undashed(StripLeft(s)) == Undashed(s)
  {
    if s != [] && s[0] == '-' {
      StripLeftKeepsLetters(s[1..]);
    }
  }

  lemma {:induction false} StripRightKeepsLetters(s: string)
    ensures Undashed(StripRight(s)) == Undashed(s)
    decreases |s|
  {
    if s != [] && s[|s| - 1] == '-' {
      var front := s[..|s| - 1];
      StripRightKeepsLetters(front);
      UndashedAppends(front, "-");
      assert s == front + "-";
      assert Undashed("-") == [];
    }
  }

  /** No dash at either end and no two in a row. */
  predicate WellDashed(r: string) {
    && (r != "" ==> r[0] != '-' && r[|r| - 1] != '-')
    && forall i | 0 < i < |r| && r[i] == '-' :: r[i - 1] != '-'
  }

  lemma {:induction false} JoinIsWellDashed(words: seq<string>)
    requires AreWords(words)
    ensures WellDashed(Join(words))
  {
    if |words| > 1 {
      var w, rest := words[0], Join(words[1..]);
      JoinIsWellDashed(words[1..]);
      JoinEdges(words[1..]);
      JoinEdges(words);
      var r := w + "-" + rest;
      assert Join(words) == r && r[|w| + 1] == rest[0];
      forall i | 0 < i < |r| && r[i] == '-'
        ensures r[i - 1] != '-'
      {
        if i <= |w| {
          assert r[i - 1] == w[i - 1];
        } else if i > |w| + 1 {
          assert r[i] == rest[i - |w| - 1] && r[i - 1] == rest[i - |w| - 2];
        }
      }
    }
  }

  /** A slug keeps the letters and digits of the lower-cased text, in order, and has single dashes between some of them. */
  lemma SlugKeepsLettersAndDigits(input: string)
    ensures Undashed(RawSlug(input)) == LettersAndDigits(Lower(input))
    ensures WellDashed(RawSlug(input))
  {
    var collapsed := Collapse(Lower(input), false);
    CollapseKeepsLetters(Lower(input), false);
    StripLeftKeepsLetters(collapsed);
    StripRightKeepsLetters(StripLeft(collapsed));
    SlugIsJoinedWords(input);
    WordsAreWords(Lower(input));
    JoinIsWellDashed(Words(Lower(input)));
  }

  /**
   * A key is the slugs of the name and the role, joined by a dash when neither is empty, and "agent" when both are. So it
   * is never empty, and the role-only fallback is never the one taken.
   */
  lemma KeyIsNeverEmpty(name: string, role: Option<string>)
    ensures SlugifyAgentKey(name, role) != "" && SlugShaped(SlugifyAgentKey(name, role))
    ensures var n, r := RawSlug(name), RawSlug(if role.Some? then role.value else "");
            SlugifyAgentKey(name, role) ==
              if n == "" && r == "" then "agent" else if n == "" then r else if r == "" then n else n + "-" + r
  {
    var roleText := if role.Some? then role.value else "";
    SlugOfTwo(name, roleText);
    SlugIsShapedAndIdempotent(name + " " + roleText);
    assert IsWord("agent");
    WordsOfJoin(["agent"]);
  }

  // ---------- unique keys ----------

  function Digit(d: nat): char
    requires d < 10
  {
    (d + '0' as int) as char
  }

  function Decimal(n: nat): string {
    if n < 10 then [Digit(n)] else Decimal(n / 10) + [Digit(n % 10)]
  }

  function Value(s: string): int {
    if s == [] then 0 else 10 * Value(s[..|s| - 1]) + (s[|s| - 1] as int - '0' as int)
  }

  lemma {:induction false} DecimalReadsBack(n: nat)
    ensures Value(Decimal(n)) == n
  {
    if n < 10 {
      assert Decimal(n)[..0] == [];
    } else {
      DecimalReadsBack(n / 10);
      assert Decimal(n)[..|Decimal(n)| - 1] == Decimal(n / 10);
    }
  }

  /** The i-th key tried: the base itself, then base-2, base-3, ... */
  function Nth(base: string, i: nat): string {
    if i == 1 then base else base + "-" + Decimal(i)
  }

  lemma SuffixesDiffer(base: string, i: nat, j: nat)
    requires i != j
    ensures Nth(base, i) != Nth(base, j)
  {
    DecimalReadsBack(i);
    DecimalReadsBack(j);
    var from := |base| + 1;
    assert i != 1 ==> Nth(base, i)[from..] == Decimal(i);
    assert j != 1 ==> Nth(base, j)[from..] == Decimal(j);
  }

  /** `key` is the first of the tried keys that is not blocked. */
  ghost predicate FirstFree(base: string, blocked: set<string>, key: string) {
    exists i: nat | i >= 1 ::
      key == Nth(base, i) && key !in blocked && forall j: nat | 1 <= j < i :: Nth(base, j) in blocked
  }

  /** At most one key is the first free one. */
  lemma FirstFreeIsUnique(base: string, blocked: set<string>, k: string, l: string)
    requires FirstFree(base, blocked, k) && FirstFree(base, blocked, l)
    ensures k == l
  {
    var i: nat :| i >= 1 && k == Nth(base, i) && k !in blocked && forall m: nat | 1 <= m < i :: Nth(base, m) in blocked;
    var j: nat :| j >= 1 && l == Nth(base, j) && l !in blocked && forall m: nat | 1 <= m < j :: Nth(base, m) in blocked;
    assert !(i < j) && !(j < i);
  }

  /** The first i - 1 keys, all blocked and all different. */
  ghost predicate Exhausted(base: string, blocked: set<string>, tried: set<string>, i: nat) {
    && tried <= blocked && |tried| == i - 1
    && (forall j: nat | 1 <= j < i :: Nth(base, j) in tried)
    && (forall k | k in tried :: exists j: nat | 1 <= j < i :: k == Nth(base, j))
  }

  lemma FirstTried(base: string, blocked: set<string>)
    requires base in blocked
    ensures Exhausted(base, blocked, {base}, 2)
  {
    assert base == Nth(base, 1);
  }

  /** One more blocked key is a new one, so a finite set of blocked keys runs out. */
  lemma OneMoreTried(base: string, blocked: set<string>, tried: set<string>, i: nat)
    requires Exhausted(base, blocked, tried, i) && i >= 2 && Nth(base, i) in blocked
    ensures Exhausted(base, blocked, tried + {Nth(base, i)}, i + 1) && i <= |blocked|
  {
    if Nth(base, i) in tried {
      var j: nat :| 1 <= j < i && Nth(base, i) == Nth(base, j);
      SuffixesDiffer(base, i, j);
    }
    SubsetIsSmaller(tried + {Nth(base, i)}, blocked);
  }

  method EnsureUniqueAgentKey(base: string, taken: set<string>) returns (key: string)
    ensures FirstFree(base, taken + RESERVED, key)
    ensures key !in taken && key != "brigadir"
    ensures base !in taken && base != "brigadir" ==> key == base
    ensures base in taken || base == "brigadir" ==>
              exists i: nat | i >= 2 ::
                key == base + "-" + Decimal(i)
                && forall j: nat | 2 <= j < i :: base + "-" + Decimal(j) in taken || base + "-" + Decimal(j) == "brigadir"
  {
    var reserved := RESERVED;
    if base !in taken && base !in reserved {
      assert base == Nth(base, 1);
      return base;
    }
    ghost var blocked := taken + RESERVED;
    ghost var tried := {base};
    FirstTried(base, blocked);
    var i := 2;
    while true
      invariant i >= 2 && Exhausted(base, blocked, tried, i)
      decreases |blocked| + 1 - i
    {
      var candidate := base + "-" + Decimal(i);
      if candidate !in taken && candidate !in reserved {
        assert candidate == Nth(base, i);
        assert forall j: nat | 2 <= j < i :: base + "-" + Decimal(j) == Nth(base, j);
        return candidate;
      }
      OneMoreTried(base, blocked, tried, i);
      tried := tried + {candidate};
      i := i + 1;
    }
  }

  // ---------- a batch of keys ----------

  function KeysOf(keys: seq<string>): set<string> {
    set i | 0 <= i < |keys| :: keys[i]
  }

  /** The keys of an accepted team: each the first free one after the workspace's and the batch's earlier ones. */
  method TeamKeys(bases: seq<string>, existing: set<string>) returns (keys: seq<string>)
    ensures |keys| == |bases|
    ensures forall i | 0 <= i < |keys| :: FirstFree(bases[i], existing + KeysOf(keys[..i]) + RESERVED, keys[i])
    ensures forall i | 0 <= i < |keys| :: keys[i] !in existing && keys[i] !in RESERVED
    ensures forall i, j | 0 <= i < j < |keys| :: keys[i] != keys[j]
  {
    keys := [];
    var taken := existing;
    while |keys| < |bases|
      invariant |keys| <= |bases| && taken == existing + KeysOf(keys)
      invariant forall i | 0 <= i < |keys| :: FirstFree(bases[i], existing + KeysOf(keys[..i]) + RESERVED, keys[i])
      invariant forall i | 0 <= i < |keys| :: keys[i] !in existing && keys[i] !in RESERVED
      invariant forall i, j | 0 <= i < j < |keys| :: keys[i] != keys[j]
      decreases |bases| - |keys|
    {
      var key := EnsureUniqueAgentKey(bases[|keys|], taken);
      KeysSnoc(keys, key);
      taken := taken + {key};
      keys := keys + [key];
    }
  }

  lemma KeysSnoc(keys: seq<string>, key: string)
    ensures KeysOf(keys + [key]) == KeysOf(keys) + {key}
    ensures forall i | 0 <= i < |keys| :: (keys + [key])[..i] == keys[..i]
    ensures (keys + [key])[..|keys|] == keys
  {
    var more := keys + [key];
    forall k | k in KeysOf(keys) + {key}
      ensures k in KeysOf(more)
    {
      if k == key {
        assert more[|keys|] == k;
      } else {
        var i :| 0 <= i < |keys| && keys[i] == k;
        assert more[i] == k;
      }
    }
  }
}
