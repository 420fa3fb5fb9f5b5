/**
  Project slugs and references (internal/project/project.go): how a name becomes a
  slug, how a free one is found, and how a reference finds its project again.
 */
module Slug {
  import opened Sequences

  /** Unicode's lower-casing, and which runes are letters or digits. */
  datatype Letters = Letters(lower: char -> char, word: char -> bool)

  predicate Digit(c: char) { '0' <= c <= '9' }

  /** What is relied on of Unicode. */
  ghost predicate Alphabet(l: Letters) {
    && (forall c :: l.lower(l.lower(c)) == l.lower(c))
    && !l.word('-') && !l.word('+') && l.lower('-') == '-'
    && (forall c | Digit(c) :: l.word(c) && l.lower(c) == c)
    && (forall c | c in "project" :: l.word(c) && l.lower(c) == c)
  }

  function Lowered(l: Letters, s: string): (t: string)
    ensures |t| == |s| && forall i | 0 <= i < |s| :: t[i] == l.lower(s[i])
  {
    seq(|s|, i requires 0 <= i < |s| => l.lower(s[i]))
  }

  predicate AllDigits(s: string) { forall c | c in s :: Digit(c) }

  /** The runs of letters and digits, joined by single dashes. */
  function Collapsed(l: Letters, s: string): string {
    if s == "" then ""
    else
      var before, c := Collapsed(l, s[..|s| - 1]), s[|s| - 1];
      if !l.word(c) then before
      else if before != "" && !l.word(s[|s| - 2]) then before + "-" + [c]
      else before + [c]
  }

  function Slugged(l: Letters, name: string): string {
    var slug := Collapsed(l, Lowered(l, name));
    if slug == "" then "project"
    else if AllDigits(slug) then "project-" + slug
    else slug
  }

  /** Letters and digits side by side stay as they are... */
  lemma {:induction false} CollapsedRun(l: Letters, s: string)
    requires forall i | 0 <= i < |s| :: l.word(s[i])
    ensures Collapsed(l, s) == s
  {
    if |s| > 0 {
      var most := s[..|s| - 1];
      assert forall i | 0 <= i < |most| :: most[i] == s[i];
      CollapsedRun(l, most);
      assert s == most + [s[|s| - 1]];
    }
  }

  /** ...and whatever else stands between two parts becomes one dash, or nothing at an end. */
  lemma {:induction false} CollapsedGap(l: Letters, u: string, gap: string, v: string)
    requires |gap| > 0 && forall i | 0 <= i < |gap| :: !l.word(gap[i])
    ensures Collapsed(l, u + gap + v) ==
              if Collapsed(l, u) == "" then Collapsed(l, v)
              else if Collapsed(l, v) == "" then Collapsed(l, u)
              else Collapsed(l, u) + "-" + Collapsed(l, v)
    decreases |v|
  {
    var s := u + gap + v;
    if v == "" {
      CollapsedTail(l, u, gap);
      assert s == u + gap;
    } else {
      var w := v[..|v| - 1];
      CollapsedGap(l, u, gap, w);
      assert s[..|s| - 1] == u + gap + w;
      assert s[|s| - 1] == v[|v| - 1];
      assert s[|s| - 2] == if |v| > 1 then v[|v| - 2] else gap[|gap| - 1];
      assert |v| == 1 ==> w == "";
    }
  }

  lemma {:induction false} CollapsedTail(l: Letters, u: string, gap: string)
    requires forall i | 0 <= i < |gap| :: !l.word(gap[i])
    ensures Collapsed(l, u + gap) == Collapsed(l, u)
  {
    if gap == "" {
      assert u + gap == u;
    } else {
      var s := u + gap;
      assert s[..|s| - 1] == u + gap[..|gap| - 1];
      CollapsedTail(l, u, gap[..|gap| - 1]);
    }
  }

  // ----- what a slug looks like -----

  /** Lower-case words with single dashes between them. */
  ghost predicate Shaped(l: Letters, s: string) {
    && (forall i | 0 <= i < |s| :: (l.word(s[i]) || s[i] == '-') && l.lower(s[i]) == s[i])
    && (s != "" ==> l.word(s[0]) && l.word(s[|s| - 1]))
    && (forall i | 0 < i < |s| && s[i - 1] == '-' :: l.word(s[i]))
  }

  function Words(l: Letters, s: string): string {
    if s == "" then ""
    else
      var before := Words(l, s[..|s| - 1]);
      if l.word(s[|s| - 1]) then before + [s[|s| - 1]] else before
  }

  lemma WordsAppend(l: Letters, s: string, c: char)
    ensures Words(l, s + [c]) == if l.word(c) then Words(l, s) + [c] else Words(l, s)
  {
    assert (s + [c])[..|s + [c]| - 1] == s;
  }

  lemma OneMoreLetter(l: Letters, s: string, c: char)
    requires Shaped(l, s) && l.word(c) && l.lower(c) == c
    ensures Shaped(l, s + [c])
  {
  }

  lemma DashAndLetter(l: Letters, s: string, c: char)
    requires Alphabet(l) && Shaped(l, s) && |s| > 0 && l.word(c) && l.lower(c) == c
    ensures Shaped(l, s + "-" + [c])
    ensures Words(l, s + "-" + [c]) == Words(l, s) + [c]
  {
    WordsAppend(l, s, '-');
    WordsAppend(l, s + "-", c);
    assert s + "-" == s + ['-'];
  }

  /** Collapsing keeps every letter and digit, in order, and nothing but dashes between. */
  lemma {:induction false} CollapsedShape(l: Letters, s: string)
    requires Alphabet(l) && forall i | 0 <= i < |s| :: l.lower(s[i]) == s[i]
    ensures Shaped(l, Collapsed(l, s))
    ensures Words(l, Collapsed(l, s)) == Words(l, s)
  {
    if s != "" {
      var before, c := Collapsed(l, s[..|s| - 1]), s[|s| - 1];
      CollapsedShape(l, s[..|s| - 1]);
      if l.word(c) {
        OneMoreLetter(l, before, c);
        WordsAppend(l, before, c);
        if |before| > 0 {
          DashAndLetter(l, before, c);
        }
      }
    }
  }

  /** Collapsing a slug changes nothing, prefix by prefix. */
  lemma {:induction false} ShapedPrefix(l: Letters, s: string, n: nat)
    requires Alphabet(l) && Shaped(l, s) && n <= |s|
    ensures Collapsed(l, s[..n]) == if n > 0 && s[n - 1] == '-' then s[..n - 1] else s[..n]
  {
    if n > 0 {
      ShapedPrefix(l, s, n - 1);
      assert s[..n][..n - 1] == s[..n - 1];
      assert s[..n] == s[..n - 1] + [s[n - 1]];
      if n > 1 && s[n - 2] == '-' {
        assert l.word(s[0]) && l.word(s[n - 1]);
        assert |s[..n - 2]| > 0;
        assert s[..n] == s[..n - 2] + "-" + [s[n - 1]];
      } else if n > 1 {
        assert l.word(s[n - 2]);
      }
    }
  }

  lemma ShapedCollapses(l: Letters, s: string)
    requires Alphabet(l) && Shaped(l, s)
    ensures Lowered(l, s) == s && Collapsed(l, s) == s
  {
    ShapedPrefix(l, s, |s|);
    assert s[..|s|] == s;
  }

  lemma SluggedShape(l: Letters, name: string)
    requires Alphabet(l)
    ensures Shaped(l, Slugged(l, name)) && |Slugged(l, name)| > 0 && !AllDigits(Slugged(l, name))
  {
    var low := Lowered(l, name);
    CollapsedShape(l, low);
    var slug := Collapsed(l, low);
    var prefix := "project";
    assert forall i | 0 <= i < |prefix| :: prefix[i] in prefix;
    assert prefix[0] == 'p' && !Digit('p');
    if slug != "" && AllDigits(slug) {
      var long := "project-" + slug;
      assert forall i | 0 <= i < |prefix| :: long[i] == prefix[i];
      assert long[7] == '-' && forall i | 8 <= i < |long| :: long[i] == slug[i - 8];
      assert long[0] in long;
    } else if slug == "" {
      assert prefix[0] in prefix;
    }
  }

  lemma {:induction false} WordsJoin(l: Letters, s: string, t: string)
    ensures Words(l, s + t) == Words(l, s) + Words(l, t)
  {
    if t == "" {
      assert s + t == s;
    } else {
      assert (s + t)[..|s + t| - 1] == s + t[..|t| - 1];
      WordsJoin(l, s, t[..|t| - 1]);
    }
  }

  lemma {:induction false} AllWords(l: Letters, s: string)
    requires forall i | 0 <= i < |s| :: l.word(s[i])
    ensures Words(l, s) == s
  {
    if s != "" {
      AllWords(l, s[..|s| - 1]);
      assert s == s[..|s| - 1] + [s[|s| - 1]];
    }
  }

  /** A slug keeps every letter and digit of the name, lower-cased and in order; at most
      "project" comes before them. */
  lemma SlugKeepsWords(l: Letters, name: string)
    requires Alphabet(l)
    ensures var kept := Words(l, Lowered(l, name));
            Words(l, Slugged(l, name)) == kept || Words(l, Slugged(l, name)) == "project" + kept
  {
    var low := Lowered(l, name);
    var slug, prefix := Collapsed(l, low), "project";
    CollapsedShape(l, low);
    assert forall i | 0 <= i < |prefix| :: prefix[i] in prefix;
    AllWords(l, prefix);
    assert Words(l, "-") == "";
    WordsJoin(l, prefix, "-");
    assert prefix + "-" == "project-";
    WordsJoin(l, "project-", slug);
    assert Words(l, "") == "" && "project" + "" == "project";
  }

  lemma SlugifyIdempotent(l: Letters, name: string)
    requires Alphabet(l)
    ensures Slugged(l, Slugged(l, name)) == Slugged(l, name)
  {
    SluggedShape(l, name);
    ShapedCollapses(l, Slugged(l, name));
  }

  // ----- numbers in references -----

  const MAX_ID: int := 0x7fff_ffff_ffff_ffff

  function DigitOf(d: int): char
    requires 0 <= d < 10
  {
    "0123456789"[d]
  }

  function Decimal(n: nat): (s: string)
    ensures s != "" && AllDigits(s)
  {
    if n < 10 then [DigitOf(n)] else Decimal(n / 10) + [DigitOf(n % 10)]
  }

  function Value(s: string): nat
    requires AllDigits(s)
  {
    if s == "" then 0
    else
      assert s[|s| - 1] in s && forall c | c in s[..|s| - 1] :: c in s;
      Value(s[..|s| - 1]) * 10 + (s[|s| - 1] as int - '0' as int)
  }

  /** A base-10 integer of 64 bits, with an optional sign. */
  function ParseInt(s: string): Option<int> {
    var signed := s != "" && (s[0] == '+' || s[0] == '-');
    var digits := if signed then s[1..] else s;
    if digits == "" || !AllDigits(digits) then None
    else
      var v: int := if signed && s[0] == '-' then -(Value(digits) as int) else Value(digits);
      if -MAX_ID - 1 <= v <= MAX_ID then Some(v) else None
  }

  lemma {:induction false} DecimalValue(n: nat)
    ensures Value(Decimal(n)) == n
  {
    if n < 10 {
      assert Decimal(n)[..0] == "";
    } else {
      DecimalValue(n / 10);
      assert Decimal(n)[..|Decimal(n)| - 1] == Decimal(n / 10);
    }
  }

  lemma ParseDecimal(n: nat)
    ensures ParseInt(Decimal(n)) == if n <= MAX_ID then Some(n) else None
  {
    var s := Decimal(n);
    DecimalValue(n);
    assert s[0] in s;
  }

  /** With a sign it reads as that many above or below zero, down to the least 64-bit integer. */
  lemma ParseSigned(n: nat)
    ensures ParseInt("+" + Decimal(n)) == if n <= MAX_ID then Some(n) else None
    ensures ParseInt("-" + Decimal(n)) == if n <= MAX_ID + 1 then Some(-(n as int)) else None
  {
    DecimalValue(n);
    assert ("+" + Decimal(n))[1..] == Decimal(n) && ("-" + Decimal(n))[1..] == Decimal(n);
  }

  // ----- a free slug -----

  /** The candidates in order: the base, then base-2, base-3, and so on. */
  function Candidate(base: string, k: nat): string {
    if k == 0 then base else base + "-" + Decimal(k + 1)
  }

  lemma CandidatesDiffer(base: string, j: nat, k: nat)
    requires Candidate(base, j) == Candidate(base, k)
    ensures j == k
  {
    if j > 0 && k > 0 {
      var m := |base| + 1;
      assert Candidate(base, j)[m..] == Decimal(j + 1) && Candidate(base, k)[m..] == Decimal(k + 1);
      DecimalValue(j + 1);
      DecimalValue(k + 1);
    }
  }

  /** No candidate of a slug reads as a number. */
  lemma CandidateNotNumeric(l: Letters, name: string, k: nat)
    requires Alphabet(l)
    ensures ParseInt(Candidate(Slugged(l, name), k)).None?
  {
    SluggedShape(l, name);
    var base, s := Slugged(l, name), Candidate(Slugged(l, name), k);
    assert l.word(base[0]);
    assert s[0] == base[0];
    if k > 0 {
      assert s[|base|] == '-' && s[|base|] in s;
    }
  }

  // ----- projects and their references -----

  /** Slugs are unique in the table. */
  ghost predicate Unique(slugs: map<int, string>) {
    forall p, q | p in slugs && q in slugs && slugs[p] == slugs[q] :: p == q
  }

  ghost predicate Refers(slugs: map<int, string>, r: Option<int>, slug: string) {
    match r
    case Some(p) => p in slugs && slugs[p] == slug
    case None => forall p | p in slugs :: slugs[p] != slug
  }

  ghost predicate Resolves(slugs: map<int, string>, ref: string, r: Option<int>) {
    if ParseInt(ref).Some? && ParseInt(ref).value in slugs then r == ParseInt(ref) else Refers(slugs, r, ref)
  }

  /** A project's slug finds exactly that project unless it reads as the id of another one. */
  lemma SlugResolves(slugs: map<int, string>, id: int, r: Option<int>)
    requires Unique(slugs) && id in slugs && Resolves(slugs, slugs[id], r)
    ensures r == Some(id) <==> !(ParseInt(slugs[id]).Some? && ParseInt(slugs[id]).value in slugs - {id})
  {
  }

  /** A new project gets a slug that finds it, for as long as slugs stay unique. */
  lemma NewProjectResolves(l: Letters, slugs: map<int, string>, id: int, name: string, k: nat, r: Option<int>)
    requires Alphabet(l) && Unique(slugs) && id in slugs && slugs[id] == Candidate(Slugged(l, name), k)
    requires Resolves(slugs, slugs[id], r)
    ensures r == Some(id)
  {
    CandidateNotNumeric(l, name, k);
    SlugResolves(slugs, id, r);
  }

  /** An id written out finds its project. */
  lemma IdResolves(slugs: map<int, string>, id: nat, r: Option<int>)
    requires id in slugs && id <= MAX_ID && Resolves(slugs, Decimal(id), r)
    ensures r == Some(id)
  {
    ParseDecimal(id);
  }

  /** The projects that hold the candidates probed so far. */
  ghost predicate Held(slugs: map<int, string>, base: string, holders: seq<int>) {
    forall k | 0 <= k < |holders| :: holders[k] in slugs && slugs[holders[k]] == Candidate(base, k)
  }

  /** Candidates differ, so there are no more taken ones than projects. */
  lemma {:induction false} HoldersFit(slugs: map<int, string>, base: string, holders: seq<int>)
    requires Held(slugs, base, holders)
    ensures |holders| <= |slugs|
    decreases |holders|
  {
    if holders != [] {
      var last := |holders| - 1;
      var rest := slugs - {holders[last]};
      forall k | 0 <= k < last ensures holders[..last][k] in rest {
        if holders[k] == holders[last] {
          CandidatesDiffer(base, k, last);
        }
      }
      HoldersFit(rest, base, holders[..last]);
      assert rest.Keys == slugs.Keys - {holders[last]};
    }
  }

  class Projects {
    const letters: Letters
    var slugs: map<int, string>

    constructor (letters: Letters)
      ensures this.letters == letters && slugs == map[]
    {
      this.letters, slugs := letters, map[];
    }

    method Slugify(name: string) returns (slug: string)
      ensures slug == Slugged(letters, name)
    {
      var low := Lowered(letters, name);
      slug := "";
      var dash := false;
      var i := 0;
      while i < |low|
        invariant 0 <= i <= |low|
        invariant slug == Collapsed(letters, low[..i])
        invariant dash <==> i > 0 && !letters.word(low[i - 1])
      {
        assert low[..i + 1][..i] == low[..i];
        if letters.word(low[i]) {
          if dash && |slug| > 0 {
            slug := slug + "-";
          }
          dash := false;
          slug := slug + [low[i]];
        } else {
          dash := true;
        }
        i := i + 1;
      }
      assert low[..i] == low;
      if slug == "" {
        return "project";
      }
      if AllDigits(slug) {
        return "project-" + slug;
      }
    }

    method GetBySlug(slug: string) returns (r: Option<int>)
      ensures Refers(slugs, r, slug)
    {
      if exists p :: p in slugs && slugs[p] == slug {
        var p :| p in slugs && slugs[p] == slug;
        return Some(p);
      }
      return None;
    }

    /** The first candidate no project has, found within one probe more than there are
        projects; `holders` are the projects with the candidates before it. */
    method UniqueSlug(name: string) returns (slug: string, ghost holders: seq<int>)
      ensures slug == Candidate(Slugged(letters, name), |holders|)
      ensures Refers(slugs, None, slug)
      ensures Held(slugs, Slugged(letters, name), holders) && |holders| <= |slugs|
    {
      var base := Slugify(name);
      slug := base;
      var n := 2;
      holders := [];
      while true
        invariant n == |holders| + 2 && slug == Candidate(base, |holders|)
        invariant Held(slugs, base, holders)
        decreases |slugs| - |holders|
      {
        HoldersFit(slugs, base, holders);
        var taken := GetBySlug(slug);
        if taken.None? {
          return;
        }
        holders := holders + [taken.value];
        HoldersFit(slugs, base, holders);
        slug := base + "-" + Decimal(n);
        n := n + 1;
      }
    }

    method Create(id: int, name: string) returns (slug: string)
      requires id !in slugs && Unique(slugs)
      modifies this
      ensures slugs == old(slugs)[id := slug] && Unique(slugs)
      ensures Refers(old(slugs), None, slug)
      ensures exists k :: slug == Candidate(Slugged(letters, name), k)
      ensures Alphabet(letters) ==> ParseInt(slug).None?
    {
      ghost var holders;
      slug, holders := UniqueSlug(name);
      slugs := slugs[id := slug];
      if Alphabet(letters) {
        CandidateNotNumeric(letters, name, |holders|);
      }
    }

    /** By id if the reference is a number and there is such a project, else by slug. */
    method Resolve(ref: string) returns (r: Option<int>)
      ensures Resolves(slugs, ref, r)
    {
      var id := ParseInt(ref);
      if id.Some? {
        if id.value in slugs {
          return id;
        }
      }
      r := GetBySlug(ref);
    }
  }
}
