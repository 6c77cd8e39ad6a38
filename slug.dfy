/** The slug pipeline the services use to turn a display name into a URL
    segment, and the probing loop that makes a slug unique among the slugs
    already stored. */
module Slug {
  import opened Text
  import opened Wrappers

  /** Canonical decomposition (NFD) of the precomposed Latin-1 letters:
      base letter followed by its combining mark. Every other character is
      its own decomposition in this model. */
  function Latin1Decomposition(c: char): Option<(char, char)>
  {
    match c
    case '\U{00C0}' => Some(('A', '\U{0300}'))
    case '\U{00C1}' => Some(('A', '\U{0301}'))
    case '\U{00C2}' => Some(('A', '\U{0302}'))
    case '\U{00C3}' => Some(('A', '\U{0303}'))
    case '\U{00C4}' => Some(('A', '\U{0308}'))
    case '\U{00C5}' => Some(('A', '\U{030A}'))
    case '\U{00C7}' => Some(('C', '\U{0327}'))
    case '\U{00C8}' => Some(('E', '\U{0300}'))
    case '\U{00C9}' => Some(('E', '\U{0301}'))
    case '\U{00CA}' => Some(('E', '\U{0302}'))
    case '\U{00CB}' => Some(('E', '\U{0308}'))
    case '\U{00CC}' => Some(('I', '\U{0300}'))
    case '\U{00CD}' => Some(('I', '\U{0301}'))
    case '\U{00CE}' => Some(('I', '\U{0302}'))
    case '\U{00CF}' => Some(('I', '\U{0308}'))
    case '\U{00D1}' => Some(('N', '\U{0303}'))
    case '\U{00D2}' => Some(('O', '\U{0300}'))
    case '\U{00D3}' => Some(('O', '\U{0301}'))
    case '\U{00D4}' => Some(('O', '\U{0302}'))
    case '\U{00D5}' => Some(('O', '\U{0303}'))
    case '\U{00D6}' => Some(('O', '\U{0308}'))
    case '\U{00D9}' => Some(('U', '\U{0300}'))
    case '\U{00DA}' => Some(('U', '\U{0301}'))
    case '\U{00DB}' => Some(('U', '\U{0302}'))
    case '\U{00DC}' => Some(('U', '\U{0308}'))
    case '\U{00DD}' => Some(('Y', '\U{0301}'))
    case '\U{00E0}' => Some(('a', '\U{0300}'))
    case '\U{00E1}' => Some(('a', '\U{0301}'))
    case '\U{00E2}' => Some(('a', '\U{0302}'))
    case '\U{00E3}' => Some(('a', '\U{0303}'))
    case '\U{00E4}' => Some(('a', '\U{0308}'))
    case '\U{00E5}' => Some(('a', '\U{030A}'))
    case '\U{00E7}' => Some(('c', '\U{0327}'))
    case '\U{00E8}' => Some(('e', '\U{0300}'))
    case '\U{00E9}' => Some(('e', '\U{0301}'))
    case '\U{00EA}' => Some(('e', '\U{0302}'))
    case '\U{00EB}' => Some(('e', '\U{0308}'))
    case '\U{00EC}' => Some(('i', '\U{0300}'))
    case '\U{00ED}' => Some(('i', '\U{0301}'))
    case '\U{00EE}' => Some(('i', '\U{0302}'))
    case '\U{00EF}' => Some(('i', '\U{0308}'))
    case '\U{00F1}' => Some(('n', '\U{0303}'))
    case '\U{00F2}' => Some(('o', '\U{0300}'))
    case '\U{00F3}' => Some(('o', '\U{0301}'))
    case '\U{00F4}' => Some(('o', '\U{0302}'))
    case '\U{00F5}' => Some(('o', '\U{0303}'))
    case '\U{00F6}' => Some(('o', '\U{0308}'))
    case '\U{00F9}' => Some(('u', '\U{0300}'))
    case '\U{00FA}' => Some(('u', '\U{0301}'))
    case '\U{00FB}' => Some(('u', '\U{0302}'))
    case '\U{00FC}' => Some(('u', '\U{0308}'))
    case '\U{00FD}' => Some(('y', '\U{0301}'))
    case '\U{00FF}' => Some(('y', '\U{0308}'))
    case _ => None
  }

  predicate IsCombiningMark(c: char) { '\U{0300}' <= c <= '\U{036F}' }

  function Decompose(c: char): (r: string)
    ensures 1 <= |r| <= 2
    ensures c < '\U{00C0}' ==> r == [c]
  {
    match Latin1Decomposition(c)
    case Some((base, mark)) => [base, mark]
    case None => [c]
  }

  /** `s.normalize('NFD')` */
  function Nfd(s: string): (r: string)
    ensures (forall i :: 0 <= i < |s| ==> s[i] < '\U{00C0}') ==> r == s
  {
    if s == [] then [] else Decompose(s[0]) + Nfd(s[1..])
  }

  /** `.replace(/[\u0300-\u036f]/g, '')`: the combining marks are dropped. */
  function StripMarks(s: string): (r: string)
    ensures |r| <= |s|
    ensures forall i :: 0 <= i < |r| ==> !IsCombiningMark(r[i])
    ensures (forall i :: 0 <= i < |s| ==> !IsCombiningMark(s[i])) ==> r == s
  {
    if s == [] then []
    else if IsCombiningMark(s[0]) then StripMarks(s[1..])
    else [s[0]] + StripMarks(s[1..])
  }

  /** The characters a finished slug is made of: `[a-z0-9-]`. */
  predicate SlugChar(c: char) { 'a' <= c <= 'z' || '0' <= c <= '9' || c == '-' }

  /** The characters `/[^a-z0-9\s-]/g` leaves in place. */
  predicate AllowedChar(c: char) { SlugChar(c) || IsSpace(c) }

  /** `.replace(/[^a-z0-9\s-]/g, '')` */
  function KeepAllowed(s: string): (r: string)
    ensures forall i :: 0 <= i < |r| ==> AllowedChar(r[i])
    ensures (forall i :: 0 <= i < |s| ==> AllowedChar(s[i])) ==> r == s
  {
    if s == [] then []
    else if AllowedChar(s[0]) then [s[0]] + KeepAllowed(s[1..])
    else KeepAllowed(s[1..])
  }

  /** The longest prefix of `s` made of white space. */
  function SpaceRunLength(s: string): (n: nat)
    ensures n <= |s|
    ensures forall i :: 0 <= i < n ==> IsSpace(s[i])
    ensures n < |s| ==> !IsSpace(s[n])
  {
    if s == [] || !IsSpace(s[0]) then 0 else 1 + SpaceRunLength(s[1..])
  }

  /** `.replace(/\s+/g, '-')`: every maximal run of white space becomes one dash. */
  function SpaceRunsToDash(s: string): (r: string)
    ensures HasNoSpace(r)
    ensures (forall i :: 0 <= i < |s| ==> AllowedChar(s[i])) ==> forall i :: 0 <= i < |r| ==> SlugChar(r[i])
    ensures HasNoSpace(s) ==> r == s
    decreases |s|
  {
    if s == [] then []
    else if IsSpace(s[0]) then
      var n := SpaceRunLength(s);
      ['-'] + SpaceRunsToDash(s[n..])
    else [s[0]] + SpaceRunsToDash(s[1..])
  }

  /** No two dashes stand next to each other. */
  predicate NoDoubleDash(s: string)
  {
    forall i :: 0 <= i < |s| - 1 ==> !(s[i] == '-' && s[i + 1] == '-')
  }

  /** `.replace(/-+/g, '-')`: every maximal run of dashes becomes one dash. */
  function SquashDashes(s: string): (r: string)
    ensures (forall i :: 0 <= i < |s| ==> SlugChar(s[i])) ==> forall i :: 0 <= i < |r| ==> SlugChar(r[i])
    ensures NoDoubleDash(r)
    ensures s != [] ==> r != [] && r[0] == s[0]
    ensures NoDoubleDash(s) ==> r == s
  {
    if |s| <= 1 then s
    else if s[0] == '-' && s[1] == '-' then SquashDashes(s[1..])
    else
      var rest := SquashDashes(s[1..]);
      assert rest[0] == s[1];
      [s[0]] + rest
  }

  /** `slugify(s)`: decompose, drop accents, lower-case, trim, drop what is
      not a letter, digit, white space or dash, then collapse white-space
      runs and dash runs into single dashes. */
  function Slugify(s: string): string
  {
    Chain(s, 7)
  }

  /** Step `n` of the chain. */
  function Step(n: nat, s: string): string
  {
    match n
    case 0 => Nfd(s)
    case 1 => StripMarks(s)
    case 2 => ToLower(s)
    case 3 => Trim(s)
    case 4 => KeepAllowed(s)
    case 5 => SpaceRunsToDash(s)
    case _ => SquashDashes(s)
  }

  /** The first `n` steps of the chain, applied in order to `s`. */
  function Chain(s: string, n: nat): string
  {
    if n == 0 then s else Step(n - 1, Chain(s, n - 1))
  }

  /** The backfill script's own copy of `slugify`, written as the nested
      calls its method chain amounts to. */
  function BackfillSlugify(s: string): string
  {
    SquashDashes(SpaceRunsToDash(KeepAllowed(Trim(ToLower(StripMarks(Nfd(s)))))))
  }

  /** The services' chain and the backfill's copy agree on every input. */
  lemma SlugifySteps(s: string)
    ensures Slugify(s) == BackfillSlugify(s)
  {
    assert Chain(s, 1) == Nfd(s);
    assert Chain(s, 2) == StripMarks(Chain(s, 1));
    assert Chain(s, 3) == ToLower(Chain(s, 2));
    assert Chain(s, 4) == Trim(Chain(s, 3));
    assert Chain(s, 5) == KeepAllowed(Chain(s, 4));
    assert Chain(s, 6) == SpaceRunsToDash(Chain(s, 5));
    assert Chain(s, 7) == SquashDashes(Chain(s, 6));
  }

  /** A string `Slugify` can produce. */
  predicate IsSlug(t: string)
  {
    (forall i :: 0 <= i < |t| ==> SlugChar(t[i])) && NoDoubleDash(t)
  }

  /** Every slug is made of `[a-z0-9-]` only and never holds `--`. */
  lemma SlugifyIsSlug(s: string)
    ensures IsSlug(Slugify(s))
  {
    SlugifySteps(s);
  }

  /** Slugifying a slug changes nothing, so `Slugify` is idempotent. */
  lemma SlugifyFixesSlugs(t: string)
    requires IsSlug(t)
    ensures Slugify(t) == t
  {
    StepFixesSlugs(0, t);
    assert Chain(t, 1) == t;
    StepFixesSlugs(1, t);
    assert Chain(t, 2) == t;
    StepFixesSlugs(2, t);
    assert Chain(t, 3) == t;
    StepFixesSlugs(3, t);
    assert Chain(t, 4) == t;
    StepFixesSlugs(4, t);
    assert Chain(t, 5) == t;
    StepFixesSlugs(5, t);
    assert Chain(t, 6) == t;
    StepFixesSlugs(6, t);
  }

  /** No step of the chain changes a slug. */
  lemma StepFixesSlugs(n: nat, t: string)
    requires IsSlug(t)
    ensures Step(n, t) == t
  {
    match n
    case 0 =>
    case 1 =>
    case 2 =>
      forall i | 0 <= i < |t| ensures ToLower(t)[i] == t[i] { }
    case 3 =>
      TrimIdentity(t);
    case 4 =>
    case 5 =>
      assert HasNoSpace(t);
    case _ =>
  }

  lemma TrimIdentity(t: string)
    requires HasNoSpace(t)
    ensures Trim(t) == t
  {
    assert TrimStart(t) == t;
    assert TrimEnd(t) == t;
  }

  lemma SlugifyIdempotent(s: string)
    ensures Slugify(Slugify(s)) == Slugify(s)
  {
    SlugifyIsSlug(s);
    SlugifyFixesSlugs(Slugify(s));
  }

  /** `slugify(s || '')` in the drivers service: an absent name slugifies as ''. */
  function SlugifyNullable(s: Option<string>): (r: string)
    ensures s.None? ==> r == []
    ensures s.Some? ==> r == Slugify(s.value)
  {
    match s
    case None => []
    case Some(v) => Slugify(v)
  }

  /** The base of a driver slug: `slugify(name) || 'pilot'`. */
  function DriverSlugBase(name: Option<string>): (r: string)
    ensures r != [] && IsSlug(r)
    ensures SlugifyNullable(name) != [] ==> r == SlugifyNullable(name)
  {
    var b := SlugifyNullable(name);
    assert IsSlug(b) by {
      if name.Some? { SlugifyIsSlug(name.value); }
    }
    assert IsSlug("pilot") by {
      var p := "pilot";
      assert forall i :: 0 <= i < |p| ==> 'a' <= p[i] <= 'z';
    }
    if b == [] then "pilot" else b
  }

  /** The `i`-th candidate the probing loop tries: the base itself first,
      then `${base}-${i}` for i = 2, 3, … */
  function Candidate(base: string, i: nat): string
    requires i >= 1
  {
    if i == 1 then base else base + "-" + NatToString(i)
  }

  /** Different probe numbers give different candidates. */
  lemma CandidateInjective(base: string, i: nat, j: nat)
    requires 1 <= i && 1 <= j && Candidate(base, i) == Candidate(base, j)
    ensures i == j
  {
    if i >= 2 && j >= 2 {
      var ci, cj := Candidate(base, i), Candidate(base, j);
      assert ci[|base| + 1..] == NatToString(i);
      assert cj[|base| + 1..] == NatToString(j);
      NatToStringInjective(i, j);
    }
  }

  /** The first `n` candidates. */
  function Candidates(base: string, n: nat): set<string>
  {
    set j | 1 <= j <= n :: Candidate(base, j)
  }

  lemma {:induction false} CandidatesCount(base: string, n: nat)
    ensures |Candidates(base, n)| == n
  {
    if n > 0 {
      CandidatesCount(base, n - 1);
      CandidatesSnoc(base, n);
      CandidateIsNew(base, n);
    }
  }

  lemma CandidatesSnoc(base: string, n: nat)
    requires n > 0
    ensures Candidates(base, n) == Candidates(base, n - 1) + {Candidate(base, n)}
  {
  }

  /** The `n`-th candidate is none of the ones before it. */
  lemma CandidateIsNew(base: string, n: nat)
    requires n > 0
    ensures Candidate(base, n) !in Candidates(base, n - 1)
  {
    if Candidate(base, n) in Candidates(base, n - 1) {
      var j :| 1 <= j <= n - 1 && Candidate(base, j) == Candidate(base, n);
      CandidateInjective(base, j, n);
    }
  }

  /** The first `n` candidates are all in `taken`. */
  predicate AllTaken(base: string, taken: set<string>, n: nat)
  {
    n == 0 || (Candidate(base, n) in taken && AllTaken(base, taken, n - 1))
  }

  lemma {:induction false} AllTakenCandidates(base: string, taken: set<string>, n: nat)
    requires AllTaken(base, taken, n)
    ensures Candidates(base, n) <= taken
  {
    if n > 0 {
      AllTakenCandidates(base, taken, n - 1);
      CandidatesSnoc(base, n);
    }
  }

  /** Once the first `n` candidates are all taken, there are at least `n` taken slugs. */
  lemma TakenCandidatesBound(base: string, taken: set<string>, n: nat)
    requires AllTaken(base, taken, n)
    ensures n <= |taken|
  {
    AllTakenCandidates(base, taken, n);
    CandidatesCount(base, n);
    SubsetCard(Candidates(base, n), taken);
  }

  /** The first candidate from number `i` on that is not in `taken`. It
      exists because `taken` is finite: the first `i - 1` candidates are
      distinct and taken, so `i` cannot pass `|taken| + 1`. */
  function FirstFreeFrom(base: string, taken: set<string>, i: nat): (s: string)
    requires i >= 1 && AllTaken(base, taken, i - 1)
    ensures s !in taken
    decreases |taken| + 1 - i
  {
    TakenCandidatesBound(base, taken, i - 1);
    if Candidate(base, i) !in taken then Candidate(base, i)
    else
      TakenCandidatesBound(base, taken, i);
      FirstFreeFrom(base, taken, i + 1)
  }

  /** The slug `makeUniqueSlug` settles on for `base` when `taken` are the
      slugs other rows hold. */
  function FreshSlug(base: string, taken: set<string>): string
  {
    FirstFreeFrom(base, taken, 1)
  }

  /** `s` is the first of base, base-2, base-3, … that is not in `taken`. */
  ghost predicate FirstFree(base: string, taken: set<string>, s: string)
  {
    exists k :: 1 <= k && s == Candidate(base, k) && s !in taken
      && forall j :: 1 <= j < k ==> Candidate(base, j) in taken
  }

  lemma {:induction false} FirstFreeFromIsFirst(base: string, taken: set<string>, i: nat)
    requires i >= 1 && AllTaken(base, taken, i - 1)
    ensures exists k :: (i <= k && FirstFreeFrom(base, taken, i) == Candidate(base, k)
      && forall j :: i <= j < k ==> Candidate(base, j) in taken)
    decreases |taken| + 1 - i
  {
    TakenCandidatesBound(base, taken, i - 1);
    if Candidate(base, i) in taken {
      TakenCandidatesBound(base, taken, i);
      FirstFreeFromIsFirst(base, taken, i + 1);
      var k :| i + 1 <= k && FirstFreeFrom(base, taken, i + 1) == Candidate(base, k)
        && forall j :: i + 1 <= j < k ==> Candidate(base, j) in taken;
      assert FirstFreeFrom(base, taken, i) == Candidate(base, k);
    } else {
      assert FirstFreeFrom(base, taken, i) == Candidate(base, i);
    }
  }

  /** `FreshSlug` is the first free candidate: it is free, and every
      candidate tried before it is taken. */
  lemma FreshSlugIsFirstFree(base: string, taken: set<string>)
    ensures FirstFree(base, taken, FreshSlug(base, taken))
  {
    FirstFreeFromIsFirst(base, taken, 1);
  }

  /** At most one string is the first free candidate. */
  lemma FirstFreeUnique(base: string, taken: set<string>, s1: string, s2: string)
    requires FirstFree(base, taken, s1) && FirstFree(base, taken, s2)
    ensures s1 == s2
  {
    var k1 :| 1 <= k1 && s1 == Candidate(base, k1) && s1 !in taken
      && forall j :: 1 <= j < k1 ==> Candidate(base, j) in taken;
    var k2 :| 1 <= k2 && s2 == Candidate(base, k2) && s2 !in taken
      && forall j :: 1 <= j < k2 ==> Candidate(base, j) in taken;
  }

  /** A free base is returned as is; any other result is `base-i` for some
      i >= 2 and means the base was taken. */
  lemma FreshSlugIsBaseIffFree(base: string, taken: set<string>)
    ensures FreshSlug(base, taken) == base <==> base !in taken
    ensures FreshSlug(base, taken) != base ==>
      exists i :: 2 <= i && FreshSlug(base, taken) == base + "-" + NatToString(i)
  {
    FreshSlugIsFirstFree(base, taken);
    var s := FreshSlug(base, taken);
    var k :| 1 <= k && s == Candidate(base, k) && s !in taken
      && forall j :: 1 <= j < k ==> Candidate(base, j) in taken;
    if k >= 2 {
      assert Candidate(base, 1) in taken;
      assert |s| > |base|;
    }
  }

  /** `makeUniqueSlug`: try the base, then `base-2`, `base-3`, … until a
      candidate is not among `taken`, the slugs other rows already hold. */
  method UniqueSlug(base: string, taken: set<string>) returns (slug: string)
    ensures slug == FreshSlug(base, taken)
  {
    slug := base;
    var i: nat := 2;
    while slug in taken
      invariant 2 <= i
      invariant slug == Candidate(base, i - 1)
      invariant AllTaken(base, taken, i - 2)
      invariant FirstFreeFrom(base, taken, i - 1) == FreshSlug(base, taken)
      decreases |taken| + 2 - i
    {
      TakenCandidatesBound(base, taken, i - 1);
      slug := base + "-" + NatToString(i);
      i := i + 1;
    }
  }

  lemma SubsetCard<T>(a: set<T>, b: set<T>)
    requires a <= b
    ensures |a| <= |b|
  {
    assert b == a + (b - a);
  }
}
