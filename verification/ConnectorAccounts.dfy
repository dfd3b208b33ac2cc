/** Names of connector accounts, and the ids that are made from them. */
module ConnectorAccounts {
  import opened Wrappers
  import opened DecimalNumerals
  import opened Text

  const MAX_LENGTH := 32
  const DEFAULT_ID := "default"
  const MAX_SAFE_INTEGER := 9_007_199_254_740_991

  predicate Alphanumeric(c: char) {
    'a' <= c <= 'z' || '0' <= c <= '9'
  }

  /** One or more groups of letters and digits with single dashes between them. */
  predicate MatchesPattern(s: string) {
    s != "" && Alphanumeric(s[0])
    && (|s| > 1 ==> MatchesPattern(if s[1] == '-' then s[2..] else s[1..]))
  }

  predicate ValidId(s: string) {
    1 <= |s| <= MAX_LENGTH && MatchesPattern(s)
  }

  predicate SlugCharacter(c: char) {
    Alphanumeric(c) || c == '-'
  }

  /** Each run of other characters becomes one dash. */
  function Dashed(s: string): string {
    if s == "" then ""
    else if Alphanumeric(s[0]) then [s[0]] + Dashed(s[1..])
    else if |s| > 1 && !Alphanumeric(s[1]) then Dashed(s[1..])
    else "-" + Dashed(s[1..])
  }

  function Slice(s: string, end: int): string
    requires end >= 0
  {
    if end < |s| then s[..end] else s
  }

  const dash := (c: char) => c == '-'

  function Slugify(lower: string -> string, name: string): string {
    TrimRight(Slice(Trim(Dashed(lower(Trim(name, white))), dash), MAX_LENGTH), dash)
  }

  // ----- The pattern, character by character

  predicate ApartAt(s: string, i: int)
    requires 0 <= i < |s|
  {
    SlugCharacter(s[i]) && (0 < i ==> Alphanumeric(s[i - 1]) || Alphanumeric(s[i]))
  }

  predicate DashesApart(s: string) {
    forall i {:trigger ApartAt(s, i)} | 0 <= i < |s| :: ApartAt(s, i)
  }

  /** A part of such a text is such a text. */
  lemma PartIsApart(s: string, i: nat, j: nat)
    requires DashesApart(s) && i <= j <= |s|
    ensures DashesApart(s[i..j])
  {
    forall k | 0 <= k < j - i
      ensures ApartAt(s[i..j], k)
    {
      assert ApartAt(s, i + k);
    }
  }

  /** A character can be put in front unless it makes two dashes meet. */
  lemma OneMoreApart(c: char, rest: string)
    requires DashesApart(rest) && SlugCharacter(c)
    requires rest != "" ==> Alphanumeric(c) || Alphanumeric(rest[0])
    ensures DashesApart([c] + rest)
  {
    forall i | 0 <= i < |rest| + 1
      ensures ApartAt([c] + rest, i)
    {
      assert i > 0 ==> ApartAt(rest, i - 1);
    }
  }

  /** Letters, digits and dashes, no two dashes next to each other, and none at an end. */
  lemma {:induction false} PatternExactly(s: string)
    ensures MatchesPattern(s) <==>
      s != "" && DashesApart(s) && Alphanumeric(s[0]) && Alphanumeric(s[|s| - 1])
    decreases |s|
  {
    hide DashesApart;
    if s != "" && Alphanumeric(s[0]) {
      if |s| == 1 {
        EndsAreApart(s);
      } else {
        var rest := if s[1] == '-' then s[2..] else s[1..];
        PatternExactly(rest);
        if MatchesPattern(s) {
          if s[1] == '-' {
            OneMoreApart('-', rest);
            assert s == [s[0]] + (['-'] + rest);
            OneMoreApart(s[0], ['-'] + rest);
          } else {
            assert s == [s[0]] + rest;
            OneMoreApart(s[0], rest);
          }
        }
        if DashesApart(s) && Alphanumeric(s[|s| - 1]) {
          PartIsApart(s, |s| - |rest|, |s|);
          assert rest == s[|s| - |rest|..|s|];
          EndsAreApart(s);
        }
      }
    }
  }

  lemma EndsAreApart(s: string)
    requires s != "" && Alphanumeric(s[0])
    ensures |s| == 1 ==> DashesApart(s)
    ensures |s| > 1 && DashesApart(s) ==> SlugCharacter(s[1])
    ensures |s| > 2 && DashesApart(s) && s[1] == '-' ==> Alphanumeric(s[2])
    ensures DashesApart(s) ==> SlugCharacter(s[|s| - 1])
  {
    assert |s| == 1 ==> ApartAt(s, 0);
    assert |s| > 1 && DashesApart(s) ==> ApartAt(s, 1);
    assert |s| > 2 && DashesApart(s) ==> ApartAt(s, 2);
    assert DashesApart(s) ==> ApartAt(s, |s| - 1);
  }

  // ----- Slugs

  lemma {:induction false} DashedIsApart(s: string)
    ensures DashesApart(Dashed(s))
    ensures s != "" ==> Dashed(s) != "" && (Alphanumeric(Dashed(s)[0]) <==> Alphanumeric(s[0]))
  {
    hide DashesApart;
    if s == "" {
      assert DashesApart("") by {
        EmptyIsApart();
      }
    } else {
      DashedIsApart(s[1..]);
      if Alphanumeric(s[0]) {
        OneMoreApart(s[0], Dashed(s[1..]));
      } else if |s| == 1 || Alphanumeric(s[1]) {
        OneMoreApart('-', Dashed(s[1..]));
        assert "-" == ['-'];
      }
    }
  }

  lemma EmptyIsApart()
    ensures DashesApart("")
  {
  }

  /** Without its outer dashes, such a text starts and ends with a letter or digit. */
  lemma TrimIsApart(s: string)
    requires DashesApart(s)
    ensures var r := Trim(s, dash);
      DashesApart(r) && (r != "" ==> Alphanumeric(r[0]) && Alphanumeric(r[|r| - 1]))
  {
    hide DashesApart, TrimLeft, TrimRight;
    var left := TrimLeft(s, dash);
    var k := |s| - |left|;
    PartIsApart(s, k, |s|);
    TrimLeftDrops(s, dash);
    assert left == s[k..|s|];
    var r := TrimRight(left, dash);
    PartIsApart(left, 0, |r|);
    assert r == left[0..|r|];
    if r != "" {
      assert r[0] == left[0];
      HasSlugCharacters(r, 0);
      HasSlugCharacters(r, |r| - 1);
    }
  }

  lemma HasSlugCharacters(s: string, i: nat)
    requires DashesApart(s) && i < |s|
    ensures SlugCharacter(s[i])
  {
    assert ApartAt(s, i);
  }

  /** The right end of such a text can be cut and its dash dropped. */
  lemma TrimmedIsValid(s: string, end: nat)
    requires DashesApart(s) && (s != "" ==> Alphanumeric(s[0]))
    ensures var r := TrimRight(Slice(s, end), dash);
      && (r != "" ==> MatchesPattern(r)) && |r| <= end && (s != "" && end > 0 ==> r != "")
  {
    hide DashesApart, TrimRight;
    var cut := Slice(s, end);
    var r := TrimRight(cut, dash);
    PartIsApart(s, 0, |r|);
    assert r == s[0..|r|];
    if r != "" {
      HasSlugCharacters(r, |r| - 1);
      PatternExactly(r);
    }
  }

  /** A slug is empty or an id. */
  lemma SlugIsEmptyOrValid(lower: string -> string, name: string)
    ensures Slugify(lower, name) == "" || ValidId(Slugify(lower, name))
  {
    hide DashesApart, TrimRight, TrimLeft, Trim, Dashed, MatchesPattern, Slice;
    var words := lower(Trim(name, white));
    DashedIsApart(words);
    TrimIsApart(Dashed(words));
    TrimmedIsValid(Trim(Dashed(words), dash), MAX_LENGTH);
  }

  lemma {:induction false} DashedKeeps(s: string)
    requires DashesApart(s) && (s != "" ==> Alphanumeric(s[|s| - 1]))
    ensures Dashed(s) == s
  {
    hide DashesApart;
    if s != "" {
      PartIsApart(s, 1, |s|);
      assert s[1..] == s[1..|s|];
      DashedKeeps(s[1..]);
      HasSlugCharacters(s, 0);
      if |s| > 1 {
        SecondIsApart(s);
      }
      assert s == [s[0]] + s[1..];
    }
  }

  lemma SecondIsApart(s: string)
    requires DashesApart(s) && |s| > 1
    ensures ApartAt(s, 1)
  {
  }

  /** Lower-casing leaves lower-case letters, digits and dashes alone. */
  ghost predicate KeepsSlugs(lower: string -> string) {
    forall s :: (forall c <- s :: SlugCharacter(c)) ==> lower(s) == s
  }

  lemma TrimKeeps(s: string, drop: char -> bool)
    requires s != "" ==> !drop(s[0]) && !drop(s[|s| - 1])
    ensures Trim(s, drop) == s
  {
  }

  /** Every id is its own slug. */
  lemma SlugFixesIds(lower: string -> string, id: string)
    requires KeepsSlugs(lower) && ValidId(id)
    ensures Slugify(lower, id) == id
  {
    hide DashesApart, TrimLeft, Trim, Dashed, MatchesPattern;
    PatternExactly(id);
    TrimKeeps(id, white);
    forall c | c in id
      ensures SlugCharacter(c)
    {
      var i :| 0 <= i < |id| && id[i] == c;
      HasSlugCharacters(id, i);
    }
    DashedKeeps(id);
    TrimKeeps(id, dash);
  }

  // ----- What a slug says

  /** The letters and digits of a text. */
  function Letters(s: string): string {
    if s == "" then ""
    else Letters(s[..|s| - 1]) + if Alphanumeric(s[|s| - 1]) then [s[|s| - 1]] else ""
  }

  lemma {:induction false} LettersJoin(s: string, t: string)
    ensures Letters(s + t) == Letters(s) + Letters(t)
    decreases |t|
  {
    if t == "" {
      assert s + t == s;
    } else {
      var n := |t| - 1;
      LettersJoin(s, t[..n]);
      assert (s + t)[..|s + t| - 1] == s + t[..n];
    }
  }

  lemma LettersFirst(c: char, s: string)
    ensures Letters([c] + s) == (if Alphanumeric(c) then [c] else "") + Letters(s)
  {
    LettersJoin([c], s);
    assert [c][..0] == "";
  }

  lemma {:induction false} DashedKeepsLetters(s: string)
    ensures Letters(Dashed(s)) == Letters(s)
  {
    if s != "" {
      DashedKeepsLetters(s[1..]);
      assert s == [s[0]] + s[1..];
      LettersFirst(s[0], s[1..]);
      LettersFirst(s[0], Dashed(s[1..]));
      LettersFirst('-', Dashed(s[1..]));
      assert "-" == ['-'];
    }
  }

  lemma {:induction false} DashesHaveNoLetters(s: string)
    requires forall i | 0 <= i < |s| :: s[i] == '-'
    ensures Letters(s) == ""
  {
    if s != "" {
      DashesHaveNoLetters(s[..|s| - 1]);
    }
  }

  lemma TrimKeepsLetters(s: string)
    ensures Letters(TrimLeft(s, dash)) == Letters(s) && Letters(TrimRight(s, dash)) == Letters(s)
  {
    hide TrimLeft, TrimRight, Letters;
    var left, right := TrimLeft(s, dash), TrimRight(s, dash);
    var k := |s| - |left|;
    TrimLeftDrops(s, dash);
    DashesHaveNoLetters(s[..k]);
    LettersJoin(s[..k], left);
    assert s == s[..k] + left;
    DashesHaveNoLetters(s[|right|..]);
    LettersJoin(right, s[|right|..]);
    assert s == right + s[|right|..];
  }

  lemma SliceSpells(s: string, end: nat)
    ensures Letters(Slice(s, end)) <= Letters(s) && (|s| <= end ==> Slice(s, end) == s)
  {
    hide Letters;
    var cut := Slice(s, end);
    LettersJoin(cut, s[|cut|..]);
    assert s == cut + s[|cut|..];
  }

  /** A slug spells the letters and digits of the lower-case name, as far as it reaches. */
  lemma SlugSpellsName(lower: string -> string, name: string)
    ensures var words := lower(Trim(name, white));
      && Letters(Slugify(lower, name)) <= Letters(words)
      && (|Trim(Dashed(words), dash)| <= MAX_LENGTH ==> Letters(Slugify(lower, name)) == Letters(words))
  {
    var words := lower(Trim(name, white));
    var trimmed := Trim(Dashed(words), dash);
    hide TrimRight, TrimLeft, Dashed, Letters, Slice;
    DashedKeepsLetters(words);
    TrimKeepsLetters(Dashed(words));
    TrimKeepsLetters(TrimLeft(Dashed(words), dash));
    assert Letters(trimmed) == Letters(words);
    SliceSpells(trimmed, MAX_LENGTH);
    TrimKeepsLetters(Slice(trimmed, MAX_LENGTH));
  }

  // ----- Candidates

  function Suffix(n: nat): string {
    "-" + Decimal(n)
  }

  /** What is left of the base when room is made for a suffix. */
  function Stem(base: string, end: nat): string {
    var truncated := TrimRight(Slice(base, end), dash);
    if truncated != "" then truncated else "account"
  }

  function Candidate(base: string, n: nat): string
    requires |Suffix(n)| <= MAX_LENGTH
  {
    Stem(base, MAX_LENGTH - |Suffix(n)|) + Suffix(n)
  }

  lemma SuffixLength(n: nat)
    requires n < MAX_SAFE_INTEGER
    ensures |Suffix(n)| <= 17
  {
    assert Pow10(16) == 10_000_000_000_000_000 by {
      assert Pow10(4) == 10_000;
      assert Pow10(8) == 100_000_000;
      assert Pow10(12) == 1_000_000_000_000;
    }
    DecimalLength(n, 16);
  }

  lemma JoinIsApart(x: string, y: string)
    requires DashesApart(x) && DashesApart(y)
    requires x != "" && y != "" ==> Alphanumeric(x[|x| - 1]) || Alphanumeric(y[0])
    ensures DashesApart(x + y)
  {
    forall i | 0 <= i < |x + y|
      ensures ApartAt(x + y, i)
    {
      assert i < |x| ==> ApartAt(x, i);
      assert i >= |x| ==> ApartAt(y, i - |x|);
    }
  }

  lemma DigitsAreApart(s: string)
    requires Digits(s)
    ensures DashesApart(s) && forall i | 0 <= i < |s| :: Alphanumeric(s[i])
  {
    forall i | 0 <= i < |s|
      ensures ApartAt(s, i) && Alphanumeric(s[i])
    {
      assert Digit(s[i]) && (0 < i ==> Digit(s[i - 1]));
    }
  }

  lemma SuffixedMatches(s: string, n: nat)
    requires MatchesPattern(s)
    ensures s + Suffix(n) != "" && MatchesPattern(s + Suffix(n))
  {
    hide DashesApart, MatchesPattern, Alphanumeric;
    PatternExactly(s);
    DigitsAreApart(Decimal(n));
    OneMoreApart('-', Decimal(n));
    assert Suffix(n) == ['-'] + Decimal(n);
    JoinIsApart(s, Suffix(n));
    PatternExactly(s + Suffix(n));
  }

  lemma StemMatches(base: string, end: nat)
    requires MatchesPattern(base) && end > 0
    ensures MatchesPattern(Stem(base, end)) && |Stem(base, end)| <= end
  {
    hide DashesApart, MatchesPattern, TrimRight, Slice, Alphanumeric;
    PatternExactly(base);
    TrimmedIsValid(base, end);
  }

  lemma CandidateIsValid(base: string, n: nat)
    requires MatchesPattern(base) && |Suffix(n)| <= 17
    ensures ValidId(Candidate(base, n))
  {
    hide MatchesPattern, Suffix, Stem;
    StemMatches(base, MAX_LENGTH - |Suffix(n)|);
    SuffixedMatches(Stem(base, MAX_LENGTH - |Suffix(n)|), n);
  }

  function LastDash(s: string): int {
    if s == "" then -1 else if s[|s| - 1] == '-' then |s| - 1 else LastDash(s[..|s| - 1])
  }

  lemma {:induction false} LastDashBeforeDigits(s: string, digits: string)
    requires Digits(digits)
    ensures LastDash(s + "-" + digits) == |s|
    decreases |digits|
  {
    var whole, n := s + "-" + digits, |digits| - 1;
    if digits != "" {
      assert Digit(digits[n]);
      LastDashBeforeDigits(s, digits[..n]);
      assert whole[..|whole| - 1] == s + "-" + digits[..n];
    }
  }

  /** The number can be read off the end of a candidate, after its last dash. */
  lemma CandidatesDiffer(base: string, m: nat, n: nat)
    requires m != n && |Suffix(m)| <= 17 && |Suffix(n)| <= 17
    ensures Candidate(base, m) != Candidate(base, n)
  {
    SuffixesDiffer(Candidate(base, m)[..|Candidate(base, m)| - |Suffix(m)|],
                   Candidate(base, n)[..|Candidate(base, n)| - |Suffix(n)|], m, n);
  }

  lemma SuffixesDiffer(x: string, y: string, m: nat, n: nat)
    requires m != n
    ensures x + Suffix(m) != y + Suffix(n)
  {
    hide LastDash;
    LastDashBeforeDigits(x, Decimal(m));
    LastDashBeforeDigits(y, Decimal(n));
    assert x + Suffix(m) == x + "-" + Decimal(m) && y + Suffix(n) == y + "-" + Decimal(n);
    if x + Suffix(m) == y + Suffix(n) {
      assert Decimal(m) == (x + "-" + Decimal(m))[|x| + 1..];
      assert Decimal(n) == (y + "-" + Decimal(n))[|y| + 1..];
      DecimalInjective(m, n);
    }
  }

  /** The candidates before the n-th are as many different ids. */
  ghost function Tried(base: string, n: nat): set<string>
    requires 2 <= n <= MAX_SAFE_INTEGER
  {
    set i | 2 <= i < n && |Suffix(i)| <= 17 :: Candidate(base, i)
  }

  lemma {:induction false} TriedCount(base: string, n: nat)
    requires 2 <= n <= MAX_SAFE_INTEGER
    ensures |Tried(base, n)| == n - 2
  {
    hide Candidate, Suffix, Decimal, Stem;
    if n == 2 {
      assert Tried(base, n) == {};
    } else {
      TriedCount(base, n - 1);
      SuffixLength(n - 1);
      assert Tried(base, n) == Tried(base, n - 1) + {Candidate(base, n - 1)};
      forall i | 2 <= i < n - 1 && |Suffix(i)| <= 17
        ensures Candidate(base, i) != Candidate(base, n - 1)
      {
        CandidatesDiffer(base, i, n - 1);
      }
    }
  }

  lemma SubsetIsNoLarger(a: set<string>, b: set<string>)
    requires a <= b
    ensures |a| <= |b|
  {
    assert b == a + (b - a);
  }

  lemma {:induction false} DistinctIsNoLonger(taken: seq<string>)
    ensures |(set id <- taken)| <= |taken|
  {
    if taken != [] {
      var last := |taken| - 1;
      DistinctIsNoLonger(taken[..last]);
      assert taken == taken[..last] + [taken[last]];
      assert (set id <- taken) == (set id <- taken[..last]) + {taken[last]};
    }
  }

  /** The id is the slug if that is free, and else the first free candidate, found among the first |taken| + 2. */
  ghost predicate IsFirstFree(base: string, used: set<string>, id: string) {
    if base !in used then id == base
    else exists n | 2 <= n < MAX_SAFE_INTEGER && |Suffix(n)| <= 17 ::
      && id == Candidate(base, n) && n <= |used| + 2
      && forall m | 2 <= m < n && |Suffix(m)| <= 17 :: Candidate(base, m) in used
  }

  method AllocateId(lower: string -> string, name: string, taken: seq<string>) returns (r: Option<string>)
    requires |taken| < 0x1_0000_0000
    ensures r.Some? && ValidId(r.value) && r.value !in taken && r.value != DEFAULT_ID
    ensures var slug := Slugify(lower, name);
      IsFirstFree(if slug == "" then "account" else slug, (set id <- taken) + {DEFAULT_ID}, r.value)
  {
    hide Candidate, Suffix, Slugify, MatchesPattern;
    var used := (set id <- taken) + {DEFAULT_ID};
    DistinctIsNoLonger(taken);
    var base := Slugify(lower, name);
    SlugIsEmptyOrValid(lower, name);
    if base == "" {
      base := "account";
      AccountIsValid();
    }
    if base !in used && 1 <= |base| <= MAX_LENGTH && MatchesPattern(base) {
      return Some(base);
    }
    var n := 2;
    while n < MAX_SAFE_INTEGER
      invariant 2 <= n <= MAX_SAFE_INTEGER
      invariant Tried(base, n) <= used
    {
      SuffixLength(n);
      TriedCount(base, n);
      SubsetIsNoLarger(Tried(base, n), used);
      CandidateIsValid(base, n);
      var candidate := Candidate(base, n);
      if candidate !in used && ValidId(candidate) {
        return Some(candidate);
      }
      n := n + 1;
    }
    TriedCount(base, n);
    SubsetIsNoLarger(Tried(base, n), used);
    return None;
  }

  lemma AccountIsValid()
    ensures ValidId("account")
  {
    PatternExactly("account");
    assert forall i {:trigger ApartAt("account", i)} | 0 <= i < 7 :: ApartAt("account", i);
  }
}
