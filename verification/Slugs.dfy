/** Slugs: the pattern they match, their derivation from a name, and the search for a free one. */
module Slugs {
  import Text

  predicate IsWordChar(c: char) {
    'a' <= c <= 'z' || '0' <= c <= '9'
  }

  predicate IsWord(s: string) {
    s != "" && forall i | 0 <= i < |s| :: IsWordChar(s[i])
  }

  function Join(words: seq<string>): string {
    if words == [] then "" else if |words| == 1 then words[0] else words[0] + "-" + Join(words[1..])
  }

  /** The slug pattern: one or more words of lower-case letters and digits, with single hyphens between. */
  ghost predicate IsSlug(s: string) {
    exists words: seq<string> :: words != [] && (forall i | 0 <= i < |words| :: IsWord(words[i])) && s == Join(words)
  }

  /** The same pattern, told from each character and its neighbours. */
  predicate SlugChars(s: string) {
    && s != "" && s[0] != '-' && s[|s| - 1] != '-'
    && (forall i | 0 <= i < |s| :: IsWordChar(s[i]) || s[i] == '-')
    && (forall i | 0 <= i < |s| - 1 :: s[i] != '-' || s[i + 1] != '-')
  }

  lemma {:induction false} JoinChars(words: seq<string>)
    requires words != [] && forall i | 0 <= i < |words| :: IsWord(words[i])
    ensures SlugChars(Join(words))
  {
    if |words| > 1 {
      JoinChars(words[1..]);
      WordChars(words[0]);
      HyphenJoins(words[0], Join(words[1..]));
    } else {
      WordChars(words[0]);
    }
  }

  /** The length of the first word. */
  function FirstWord(s: string): (n: nat)
    ensures n <= |s| && (forall i | 0 <= i < n :: IsWordChar(s[i])) && (n < |s| ==> !IsWordChar(s[n]))
  {
    if s != "" && IsWordChar(s[0]) then 1 + FirstWord(s[1..]) else 0
  }

  lemma {:induction false} SplitChars(s: string) returns (words: seq<string>)
    requires SlugChars(s)
    ensures words != [] && (forall i | 0 <= i < |words| :: IsWord(words[i])) && s == Join(words)
    decreases |s|
  {
    var n := FirstWord(s);
    if n == |s| {
      words := [s];
    } else {
      assert s[n] == '-' && n > 0;
      assert n + 1 < |s|;
      var rest := s[n + 1..];
      assert SlugChars(rest);
      var more := SplitChars(rest);
      words := [s[..n]] + more;
      assert words[1..] == more;
      assert s == s[..n] + "-" + rest;
    }
  }

  lemma SlugPattern(s: string)
    ensures IsSlug(s) <==> SlugChars(s)
  {
    if IsSlug(s) {
      var words: seq<string> :| words != [] && (forall i | 0 <= i < |words| :: IsWord(words[i])) && s == Join(words);
      JoinChars(words);
    }
    if SlugChars(s) {
      var words := SplitChars(s);
    }
  }

  // ---------- normalisation

  function DropGap(s: string): (r: string)
    ensures |r| <= |s| && (r != "" ==> IsWordChar(r[0]))
    ensures s != "" && !IsWordChar(s[0]) ==> |r| < |s|
  {
    if s != "" && !IsWordChar(s[0]) then DropGap(s[1..]) else s
  }

  /** Every run of other characters replaced by one hyphen. */
  function Hyphenate(s: string): string
    decreases |s|
  {
    if s == "" then ""
    else if IsWordChar(s[0]) then [s[0]] + Hyphenate(s[1..])
    else "-" + Hyphenate(DropGap(s))
  }

  function TrimLeft(s: string): (r: string)
    ensures |r| <= |s|
  {
    if s != "" && s[0] == '-' then TrimLeft(s[1..]) else s
  }

  function TrimRight(s: string): (r: string)
    ensures r <= s
  {
    if s != "" && s[|s| - 1] == '-' then TrimRight(s[..|s| - 1]) else s
  }

  /** The base slug of a name. */
  function Normalized(s: string): string {
    TrimRight(TrimLeft(Hyphenate(Text.Lower(Text.Strip(s)))))
  }

  /** The words of a text: its maximal runs of lower-case letters and digits. */
  function Words(s: string): (words: seq<string>)
    ensures forall i | 0 <= i < |words| :: IsWord(words[i])
    decreases |s|
  {
    if s == "" then []
    else if !IsWordChar(s[0]) then Words(DropGap(s))
    else
      var n := FirstWord(s);
      [s[..n]] + Words(s[n..])
  }

  /** Hyphenation leaves the first word as it is. */
  lemma {:induction false} HyphenateWord(s: string, n: nat)
    requires n <= |s| && forall i | 0 <= i < n :: IsWordChar(s[i])
    ensures Hyphenate(s) == s[..n] + Hyphenate(s[n..])
  {
    if n > 0 {
      HyphenateWord(s[1..], n - 1);
      assert s[1..][n - 1..] == s[n..] && s[..n] == [s[0]] + s[1..][..n - 1];
    } else {
      assert s[..0] == "" && s[0..] == s;
    }
  }

  lemma {:induction false} HyphenateGap(s: string)
    ensures Hyphenate(s) == if s != "" && !IsWordChar(s[0]) then "-" + Hyphenate(DropGap(s)) else Hyphenate(DropGap(s))
  {
  }

  lemma {:induction false} TrimRightWord(s: string, t: string)
    requires s != "" && s[|s| - 1] != '-'
    ensures TrimRight(s + t) == if TrimRight(t) == "" then s else s + TrimRight(t)
    decreases |t|
  {
    if t == "" {
      assert s + t == s;
    } else if t[|t| - 1] == '-' {
      assert (s + t)[..|s + t| - 1] == s + t[..|t| - 1];
      TrimRightWord(s, t[..|t| - 1]);
    }
  }

  /** From a text that starts with a word, what is left after the hyphens are trimmed is its words, joined. */
  lemma {:induction false} TrimmedWords(s: string)
    requires s != "" ==> IsWordChar(s[0])
    ensures TrimRight(Hyphenate(s)) == Join(Words(s))
    ensures (s == "" <==> Words(s) == [])
    decreases |s|
  {
    if s != "" {
      var n := FirstWord(s);
      var head, tail := s[..n], s[n..];
      HyphenateWord(s, n);
      assert head != "" && head[|head| - 1] != '-';
      TrimRightWord(head, Hyphenate(tail));
      hide TrimRight, Hyphenate;
      if tail == "" {
        assert Words(s) == [head];
        TrimmedNothing();
      } else {
        var rest := DropGap(tail);
        TrimmedWords(rest);
        assert Words(tail) == Words(rest);
        assert Words(s) == [head] + Words(rest) && Words(s)[1..] == Words(rest);
        TrimmedGap(tail);
      }
    }
  }

  lemma TrimmedNothing()
    ensures TrimRight(Hyphenate("")) == ""
  {
  }

  lemma TrimmedGap(tail: string)
    requires tail != "" && !IsWordChar(tail[0])
    requires TrimRight(Hyphenate(DropGap(tail))) == Join(Words(DropGap(tail)))
        && (DropGap(tail) == "" <==> Words(DropGap(tail)) == [])
    ensures TrimRight(Hyphenate(tail)) == if DropGap(tail) == "" then "" else "-" + Join(Words(DropGap(tail)))
  {
    var rest := DropGap(tail);
    assert Hyphenate(tail) == "-" + Hyphenate(rest);
    if rest == "" {
      assert "-"[..0] == "" && TrimRight("-") == TrimRight("");
    } else {
      TrimRightHyphen(Hyphenate(rest));
      JoinNonEmpty(Words(rest));
    }
  }

  lemma {:induction false} TrimRightHyphen(t: string)
    ensures TrimRight(t) != "" ==> TrimRight("-" + t) == "-" + TrimRight(t)
    decreases |t|
  {
    if t != "" && t[|t| - 1] == '-' {
      assert ("-" + t)[..|t|] == "-" + t[..|t| - 1];
      TrimRightHyphen(t[..|t| - 1]);
    }
  }

  lemma JoinNonEmpty(words: seq<string>)
    requires words != [] && forall i | 0 <= i < |words| :: IsWord(words[i])
    ensures Join(words) != ""
  {
    JoinChars(words);
  }

  lemma {:induction false} HyphenateStart(s: string)
    ensures TrimLeft(Hyphenate(s)) == Hyphenate(DropGap(s))
  {
    var rest := DropGap(s);
    if s != "" && !IsWordChar(s[0]) {
      assert Hyphenate(s) == "-" + Hyphenate(rest);
      assert ("-" + Hyphenate(rest))[1..] == Hyphenate(rest);
    } else {
      assert rest == s;
    }
    if rest != "" {
      assert Hyphenate(rest) == [rest[0]] + Hyphenate(rest[1..]);
    }
  }

  /** The base slug is the words of the lower-case text, joined by hyphens: empty when there are none,
      and otherwise a slug. */
  lemma NormalizedWords(s: string)
    ensures Normalized(s) == Join(Words(Text.Lower(Text.Strip(s))))
    ensures Words(Text.Lower(Text.Strip(s))) == [] <==> Normalized(s) == ""
    ensures Normalized(s) != "" ==> IsSlug(Normalized(s))
  {
    var t := Text.Lower(Text.Strip(s));
    HyphenateStart(t);
    TrimmedWords(DropGap(t));
    assert Words(t) == Words(DropGap(t));
    if Words(t) != [] {
      JoinNonEmpty(Words(t));
    }
  }

  /** A slug is left alone by hyphenation. */
  lemma {:induction false} HyphenateSlug(s: string)
    requires (forall i | 0 <= i < |s| :: IsWordChar(s[i]) || s[i] == '-')
    requires forall i | 0 <= i < |s| - 1 :: s[i] != '-' || s[i + 1] != '-'
    ensures Hyphenate(s) == s
    decreases |s|
  {
    if s != "" {
      HyphenateSlug(s[1..]);
      if !IsWordChar(s[0]) {
        assert DropGap(s) == s[1..] by {
          if |s| > 1 {
            assert IsWordChar(s[1..][0]);
          }
        }
      }
      assert s == [s[0]] + s[1..];
    }
  }

  lemma {:induction false} StripNone(s: string)
    requires s != "" && !Text.IsSpace(s[0]) && !Text.IsSpace(s[|s| - 1])
    ensures Text.Strip(s) == s
  {
  }

  /** Normalisation leaves slugs alone, and so it is idempotent. */
  lemma NormalizedSlug(s: string)
    requires IsSlug(s)
    ensures Normalized(s) == s
  {
    SlugPattern(s);
    assert IsWordChar(s[0]) && IsWordChar(s[|s| - 1]);
    StripNone(s);
    assert Text.Lower(s) == s;
    HyphenateSlug(s);
  }

  lemma NormalizedTwice(s: string)
    ensures Normalized(Normalized(s)) == Normalized(s)
  {
    NormalizedWords(s);
    if Normalized(s) != "" {
      NormalizedSlug(Normalized(s));
    }
  }

  // ---------- suffixes

  function Digit(d: nat): char
    requires d < 10
  {
    ('0' as int + d) as char
  }

  function Decimal(k: nat): (s: string)
    ensures IsWord(s)
  {
    if k < 10 then [Digit(k)] else Decimal(k / 10) + [Digit(k % 10)]
  }

  function ValueOf(s: string): int {
    if s == "" then 0 else 10 * ValueOf(s[..|s| - 1]) + (s[|s| - 1] as int - '0' as int)
  }

  /** The number can be read back. */
  lemma {:induction false} DecimalValue(k: nat)
    ensures ValueOf(Decimal(k)) == k
  {
    if k >= 10 {
      DecimalValue(k / 10);
      assert Decimal(k)[..|Decimal(k)| - 1] == Decimal(k / 10);
    } else {
      assert [Digit(k)][..0] == "";
    }
  }

  function Candidate(base: string, suffix: nat): string {
    if suffix == 0 then base else base + "-" + Decimal(suffix)
  }

  lemma HyphenJoins(a: string, b: string)
    requires SlugChars(a) && SlugChars(b)
    ensures SlugChars(a + "-" + b)
  {
    var s := a + "-" + b;
    assert forall i | 0 <= i < |s| :: s[i] == if i < |a| then a[i] else if i == |a| then '-' else b[i - |a| - 1];
  }

  lemma CandidateSlug(base: string, suffix: nat)
    requires IsSlug(base)
    ensures IsSlug(Candidate(base, suffix))
  {
    SlugPattern(base);
    if suffix > 0 {
      WordChars(Decimal(suffix));
      hide SlugChars, IsSlug, Decimal;
      HyphenJoins(base, Decimal(suffix));
    }
    SlugPattern(Candidate(base, suffix));
  }

  lemma WordChars(s: string)
    requires IsWord(s)
    ensures SlugChars(s)
  {
  }

  lemma CandidatesDiffer(base: string, j: nat, k: nat)
    requires j != k
    ensures Candidate(base, j) != Candidate(base, k)
  {
    DecimalValue(j);
    DecimalValue(k);
    assert j > 0 ==> |Candidate(base, j)| > |base| && Candidate(base, j)[|base| + 1..] == Decimal(j);
    assert k > 0 ==> |Candidate(base, k)| > |base| && Candidate(base, k)[|base| + 1..] == Decimal(k);
  }

  function Candidates(base: string, n: nat): set<string> {
    set j | 0 <= j < n :: Candidate(base, j)
  }

  lemma CandidatesGrow(base: string, n: nat)
    ensures Candidates(base, n + 1) == Candidates(base, n) + {Candidate(base, n)}
    ensures Candidate(base, n) !in Candidates(base, n)
  {
    hide Candidate;
    forall j | 0 <= j < n ensures Candidate(base, j) != Candidate(base, n) {
      CandidatesDiffer(base, j, n);
    }
  }

  lemma {:induction false} CandidatesCount(base: string, n: nat)
    ensures |Candidates(base, n)| == n
  {
    if n > 0 {
      CandidatesGrow(base, n - 1);
      CandidatesCount(base, n - 1);
      hide Candidates, Candidate;
    }
  }

  /** As many candidates are taken as there are taken slugs, at most. */
  lemma Pigeonhole(base: string, taken: set<string>, n: nat)
    requires forall j | 0 <= j < n :: Candidate(base, j) in taken
    ensures n <= |taken|
  {
    CandidatesCount(base, n);
    assert Candidates(base, n) <= taken;
    Subset(Candidates(base, n), taken);
  }

  lemma Subset(a: set<string>, b: set<string>)
    requires a <= b
    ensures |a| <= |b|
  {
    assert b == a + (b - a);
  }

  /** The smallest suffix from `from` on that is free. */
  function Smallest(base: string, taken: set<string>, from: nat): (suffix: nat)
    requires forall j | 0 <= j < from :: Candidate(base, j) in taken
    ensures from <= suffix && Candidate(base, suffix) !in taken
    ensures forall j | 0 <= j < suffix :: Candidate(base, j) in taken
    decreases |taken| - from
  {
    Pigeonhole(base, taken, from);
    if Candidate(base, from) !in taken then from
    else
      Pigeonhole(base, taken, from + 1);
      Smallest(base, taken, from + 1)
  }

  /** The slug with the smallest free suffix, found within one more probe than there are taken slugs. */
  method FreeSlug(base: string, taken: set<string>) returns (slug: string, suffix: nat, probes: nat)
    ensures slug == Candidate(base, suffix) && slug !in taken
    ensures suffix == Smallest(base, taken, 0)
    ensures forall j | 0 <= j < suffix :: Candidate(base, j) in taken
    ensures probes == suffix + 1 <= |taken| + 1
  {
    suffix, slug, probes := 0, base, 0;
    while true
      invariant slug == Candidate(base, suffix) && probes == suffix
      invariant forall j | 0 <= j < suffix :: Candidate(base, j) in taken
      decreases |taken| - suffix
    {
      Pigeonhole(base, taken, suffix);
      probes := probes + 1;
      if slug !in taken {
        return;
      }
      Pigeonhole(base, taken, suffix + 1);
      suffix := suffix + 1;
      slug := base + "-" + Decimal(suffix);
    }
  }
}
