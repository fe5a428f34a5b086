/** The contributor dashboard's data (contexts/ContributorContext.tsx): the
    contributions list, its summary statistics, the pull-request URL parser, and
    the claim mutation that parses before it fetches. */
module ContributorContext {
  import opened Common

  // ---------------------------------------------------------------------------
  // The pull-request URL pattern `github\.com\/(C+)\/(C+)\/pull\/(\d+)`

  const HOST := "github.com/"
  const PULL := "/pull/"

  /** `[^\/]`, the name class of the parser. */
  predicate NotSlash(c: char) {
    c != '/'
  }

  /** The end of the longest run of `inClass` characters starting at `i`. */
  function RunEnd(s: string, i: nat, inClass: char -> bool): (j: nat)
    requires i <= |s|
    ensures i <= j <= |s|
    decreases |s| - i
  {
    if i < |s| && inClass(s[i]) then RunEnd(s, i + 1, inClass) else i
  }

  /** The run is made of the class and cannot be extended: the `+` of the pattern
      takes the longest run. */
  lemma {:induction false} RunEndIsLongest(s: string, i: nat, inClass: char -> bool)
    requires i <= |s|
    ensures forall k :: i <= k < RunEnd(s, i, inClass) ==> inClass(s[k])
    ensures RunEnd(s, i, inClass) < |s| ==> !inClass(s[RunEnd(s, i, inClass)])
    decreases |s| - i
  {
    if i < |s| && inClass(s[i]) {
      RunEndIsLongest(s, i + 1, inClass);
    }
  }

  /** The three captured groups. */
  datatype PrRef = PrRef(owner: string, repo: string, prNumber: string)

  /** A non-empty name made of `nameChar` characters. */
  predicate IsName(w: string, nameChar: char -> bool) {
    |w| > 0 && forall k :: 0 <= k < |w| ==> nameChar(w[k])
  }

  /** The text a match covers. */
  function Segment(r: PrRef): string {
    HOST + r.owner + "/" + r.repo + PULL + r.prNumber
  }

  /** The pattern tried at position `i`. The name class never contains `/` and the
      digits end the pattern, so each `+` group must take its longest run and
      backtracking never finds another match. */
  function MatchAt(s: string, i: nat, nameChar: char -> bool): Option<PrRef>
    requires i <= |s|
    requires !nameChar('/')
  {
    if !StartsAt(s, i, HOST) then None
    else
      var a := i + |HOST|;
      var b := RunEnd(s, a, nameChar);
      if b == a || b == |s| || s[b] != '/' then None
      else
        var c := RunEnd(s, b + 1, nameChar);
        if c == b + 1 || !StartsAt(s, c, PULL) then None
        else
          var d := RunEnd(s, c + |PULL|, IsDigit);
          if d == c + |PULL| then None
          else
            Some(PrRef(s[a..b], s[b + 1..c], s[c + |PULL|..d]))
  }

  /** The leftmost position at or after `i` where the pattern matches, or `|s| + 1`
      when there is none. */
  function FirstMatch(s: string, i: nat, nameChar: char -> bool): (j: nat)
    requires i <= |s|
    requires !nameChar('/')
    ensures i <= j <= |s| + 1
    ensures j <= |s| ==> MatchAt(s, j, nameChar).Some?
    ensures forall k :: i <= k < j && k <= |s| ==> MatchAt(s, k, nameChar).None?
    decreases |s| - i
  {
    if MatchAt(s, i, nameChar).Some? then i
    else if i == |s| then |s| + 1
    else FirstMatch(s, i + 1, nameChar)
  }

  /** `String.prototype.match` with a non-global pattern: the leftmost match. */
  function Find(s: string, nameChar: char -> bool): (m: Option<PrRef>)
    requires !nameChar('/')
    ensures m.None? <==> forall j :: 0 <= j <= |s| ==> MatchAt(s, j, nameChar).None?
    // A match found is the one at the leftmost matching position.
    ensures m.Some? ==> exists k :: 0 <= k <= |s| && m == MatchAt(s, k, nameChar)
                                    && forall j :: 0 <= j < k ==> MatchAt(s, j, nameChar).None?
  {
    var j := FirstMatch(s, 0, nameChar);
    if j <= |s| then MatchAt(s, j, nameChar) else None
  }

  /** The groups of a match are non-empty names of the class and a digit string. */
  lemma {:induction false} MatchAtGroups(s: string, i: nat, nameChar: char -> bool)
    requires i <= |s| && !nameChar('/')
    requires MatchAt(s, i, nameChar).Some?
    ensures var m := MatchAt(s, i, nameChar).value;
      IsName(m.owner, nameChar) && IsName(m.repo, nameChar) && IsDigitString(m.prNumber)
  {
    var b, c, d := MatchAtShape(s, i, nameChar);
    RunIsWord(s, i + |HOST|, nameChar);
    RunIsWord(s, b + 1, nameChar);
    RunIsWord(s, c + |PULL|, IsDigit);
  }

  /** The text a run spans consists of characters of its class. */
  lemma {:induction false} RunIsWord(s: string, x: nat, inClass: char -> bool)
    requires x <= |s|
    ensures var w := s[x..RunEnd(s, x, inClass)];
      forall k :: 0 <= k < |w| ==> inClass(w[k])
  {
    RunEndIsLongest(s, x, inClass);
    var e := RunEnd(s, x, inClass);
    forall k | 0 <= k < e - x ensures inClass(s[x..e][k]) {
      assert s[x..e][k] == s[x + k];
    }
  }

  /** Where the runs of a match end: the converse of `MatchAtParts`. */
  lemma {:induction false} MatchAtShape(s: string, i: nat, nameChar: char -> bool) returns (b: nat, c: nat, d: nat)
    requires i <= |s| && !nameChar('/')
    requires MatchAt(s, i, nameChar).Some?
    ensures i + |HOST| < b < c - 1 && c + |PULL| < d <= |s|
    ensures s[i..i + |HOST|] == HOST && s[b] == '/' && s[c..c + |PULL|] == PULL
    ensures RunEnd(s, i + |HOST|, nameChar) == b
    ensures RunEnd(s, b + 1, nameChar) == c
    ensures RunEnd(s, c + |PULL|, IsDigit) == d
    ensures MatchAt(s, i, nameChar) == Some(PrRef(s[i + |HOST|..b], s[b + 1..c], s[c + |PULL|..d]))
  {
    b := RunEnd(s, i + |HOST|, nameChar);
    c := RunEnd(s, b + 1, nameChar);
    d := RunEnd(s, c + |PULL|, IsDigit);
  }

  /** The pattern fails when the owner run is not followed by `/`. */
  lemma NoSlashAfterOwner(s: string, i: nat, nameChar: char -> bool)
    requires i + |HOST| <= |s| && !nameChar('/')
    requires RunEnd(s, i + |HOST|, nameChar) < |s| && s[RunEnd(s, i + |HOST|, nameChar)] != '/'
    ensures MatchAt(s, i, nameChar).None?
  {
  }

  /** The pattern fails when the repository run is not followed by `/pull/`. */
  lemma NoPullAfterRepo(s: string, i: nat, b: nat, nameChar: char -> bool)
    requires i + |HOST| <= b < |s| && !nameChar('/')
    requires RunEnd(s, i + |HOST|, nameChar) == b && s[b] == '/'
    requires RunEnd(s, b + 1, nameChar) < |s| && s[RunEnd(s, b + 1, nameChar)] != '/'
    ensures MatchAt(s, i, nameChar).None?
  {
    var c := RunEnd(s, b + 1, nameChar);
    assert c + |PULL| <= |s| ==> s[c..c + |PULL|][0] == s[c];
  }

  /** Splitting a slice at an inner point. */
  lemma SliceSplit(s: string, x: nat, y: nat, z: nat)
    requires x <= y <= z <= |s|
    ensures s[x..z] == s[x..y] + s[y..z]
  {
  }

  /** The pieces laid out from `i` to `d` spell the segment of the captured groups. */
  lemma {:induction false} PiecesSpellSegment(s: string, i: nat, b: nat, c: nat, d: nat, r: PrRef)
    requires i + |HOST| <= b < b + 1 <= c && c + |PULL| <= d <= |s|
    requires s[i..i + |HOST|] == HOST && s[b] == '/' && s[c..c + |PULL|] == PULL
    requires r == PrRef(s[i + |HOST|..b], s[b + 1..c], s[c + |PULL|..d])
    ensures s[i..d] == Segment(r)
  {
    var a := i + |HOST|;
    SliceSplit(s, i, a, b);
    assert s[i..b] == HOST + r.owner;
    SliceSplit(s, i, b, b + 1);
    assert s[b..b + 1] == "/";
    assert s[i..b + 1] == HOST + r.owner + "/";
    SliceSplit(s, i, b + 1, c);
    assert s[i..c] == HOST + r.owner + "/" + r.repo;
    SliceSplit(s, i, c, c + |PULL|);
    assert s[i..c + |PULL|] == HOST + r.owner + "/" + r.repo + PULL;
    SliceSplit(s, i, c + |PULL|, d);
  }

  /** A match covers exactly the text of its segment, and no digit follows it. */
  lemma {:induction false} MatchCovers(s: string, i: nat, nameChar: char -> bool)
    requires i <= |s| && !nameChar('/')
    requires MatchAt(s, i, nameChar).Some?
    ensures StartsAt(s, i, Segment(MatchAt(s, i, nameChar).value))
    ensures var e := i + |Segment(MatchAt(s, i, nameChar).value)|; e == |s| || !IsDigit(s[e])
  {
    var b, c, d := MatchAtShape(s, i, nameChar);
    RunEndIsLongest(s, c + |PULL|, IsDigit);
    PiecesSpellSegment(s, i, b, c, d, MatchAt(s, i, nameChar).value);
  }

  const PARSE_ERROR := "Invalid GitHub PR URL format"

  /** `parseGitHubPRUrl`; the inner error is replaced by the format message. */
  function ParseGitHubPRUrl(url: string): (r: Result<PrRef, string>)
    ensures r.Ok? ==> IsName(r.value.owner, NotSlash) && IsName(r.value.repo, NotSlash) && IsDigitString(r.value.prNumber)
    ensures r.Ok? ==> Includes(url, Segment(r.value))
    ensures r.Err? <==> forall j :: 0 <= j <= |url| ==> MatchAt(url, j, NotSlash).None?
    ensures r.Err? ==> r.error == "Invalid GitHub PR URL format"
  {
    match Find(url, NotSlash)
    case Some(ref) =>
      var j := FirstMatch(url, 0, NotSlash);
      MatchAtGroups(url, j, NotSlash);
      MatchCovers(url, j, NotSlash);
      Ok(ref)
    case None => Err(PARSE_ERROR)
  }

  /** A run that ends where the class ends is the longest run. */
  lemma {:induction false} RunEndAt(s: string, i: nat, j: nat, inClass: char -> bool)
    requires i <= j <= |s|
    requires forall k :: i <= k < j ==> inClass(s[k])
    requires j == |s| || !inClass(s[j])
    ensures RunEnd(s, i, inClass) == j
    decreases j - i
  {
    if i < j {
      RunEndAt(s, i + 1, j, inClass);
    }
  }

  /** When the match at `k` is the only one, the search returns it. */
  lemma OnlyMatch(s: string, k: nat, nameChar: char -> bool)
    requires k <= |s| && !nameChar('/')
    requires forall j :: 0 <= j <= |s| && j != k ==> MatchAt(s, j, nameChar).None?
    ensures Find(s, nameChar) == MatchAt(s, k, nameChar)
  {
  }

  /** The whole URL laid out around one `github.com/` segment. */
  function Url(prefix: string, r: PrRef, suffix: string): string {
    prefix + Segment(r) + suffix
  }

  /** The pieces of segment `r` sit in `s` from position `i` on. */
  predicate LaidOut(s: string, i: nat, r: PrRef) {
    var a := i + |HOST|;
    var b := a + |r.owner|;
    var c := b + 1 + |r.repo|;
    var d := c + |PULL| + |r.prNumber|;
    && d <= |s|
    && s[i..a] == HOST
    && s[a..b] == r.owner
    && s[b] == '/'
    && s[b + 1..c] == r.repo
    && s[c..c + |PULL|] == PULL
    && s[c + |PULL|..d] == r.prNumber
  }

  /** The pieces of `Url` as slices. */
  lemma {:induction false} UrlSlices(prefix: string, r: PrRef, suffix: string)
    ensures LaidOut(Url(prefix, r, suffix), |prefix|, r)
    ensures Url(prefix, r, suffix)[..|prefix|] == prefix
    ensures Url(prefix, r, suffix)[|prefix| + |Segment(r)|..] == suffix
    ensures |Segment(r)| == |HOST| + |r.owner| + 1 + |r.repo| + |PULL| + |r.prNumber|
  {
    UrlHeadSlices(prefix, r, suffix);
    UrlTailSlices(prefix, r, suffix);
  }

  /** `Url` with its pieces side by side. */
  lemma UrlFlat(prefix: string, r: PrRef, suffix: string)
    ensures Url(prefix, r, suffix) == prefix + HOST + r.owner + "/" + r.repo + PULL + r.prNumber + suffix
  {
  }

  lemma {:induction false} UrlHeadSlices(prefix: string, r: PrRef, suffix: string)
    ensures var s := Url(prefix, r, suffix);
      var i := |prefix|;
      var a := i + |HOST|;
      var b := a + |r.owner|;
      && b < |s| && s[..i] == prefix && s[i..a] == HOST && s[a..b] == r.owner && s[b] == '/'
  {
    UrlFlat(prefix, r, suffix);
  }

  lemma {:induction false} UrlTailSlices(prefix: string, r: PrRef, suffix: string)
    ensures var s := Url(prefix, r, suffix);
      var b := |prefix| + |HOST| + |r.owner|;
      var c := b + 1 + |r.repo|;
      var d := c + |PULL| + |r.prNumber|;
      && d <= |s| && s[b + 1..c] == r.repo && s[c..c + |PULL|] == PULL && s[c + |PULL|..d] == r.prNumber
      && s[d..] == suffix && |Segment(r)| == d - |prefix|
  {
    UrlFlat(prefix, r, suffix);
  }

  /** The match at `i` read off from the positions where its runs end. */
  lemma {:induction false} MatchAtParts(s: string, i: nat, b: nat, c: nat, d: nat, nameChar: char -> bool)
    requires !nameChar('/')
    requires i + |HOST| < b < c - 1 && c + |PULL| < d <= |s|
    requires s[i..i + |HOST|] == HOST && s[b] == '/' && s[c..c + |PULL|] == PULL
    requires RunEnd(s, i + |HOST|, nameChar) == b
    requires RunEnd(s, b + 1, nameChar) == c
    requires RunEnd(s, c + |PULL|, IsDigit) == d
    ensures MatchAt(s, i, nameChar) == Some(PrRef(s[i + |HOST|..b], s[b + 1..c], s[c + |PULL|..d]))
  {
    assert StartsAt(s, i, HOST);
    assert StartsAt(s, c, PULL);
  }

  /** The three parts of a laid-out segment, read back as slices, with the boundaries
      between them. */
  lemma {:induction false} LaidOutPieces(s: string, i: nat, r: PrRef) returns (b: nat, c: nat, d: nat)
    requires r.owner != [] && r.repo != [] && r.prNumber != []
    requires LaidOut(s, i, r)
    ensures b == i + |HOST| + |r.owner| && c == b + 1 + |r.repo| && d == c + |PULL| + |r.prNumber|
    ensures i + |HOST| < b < c - 1 && c + |PULL| < d <= |s|
    ensures s[i..i + |HOST|] == HOST && s[b] == '/' && s[c..c + |PULL|] == PULL
    ensures r == PrRef(s[i + |HOST|..b], s[b + 1..c], s[c + |PULL|..d])
  {
    b := i + |HOST| + |r.owner|;
    c := b + 1 + |r.repo|;
    d := c + |PULL| + |r.prNumber|;
  }

  /** A run over a word of the class, laid out at `x` and not followed by the class,
      ends just after the word. */
  lemma RunOverWord(s: string, x: nat, w: string, inClass: char -> bool)
    requires x + |w| <= |s| && s[x..x + |w|] == w
    requires forall k :: 0 <= k < |w| ==> inClass(w[k])
    requires x + |w| == |s| || !inClass(s[x + |w|])
    ensures RunEnd(s, x, inClass) == x + |w|
  {
    forall k | x <= k < x + |w| ensures inClass(s[k]) {
      assert s[k] == s[x..x + |w|][k - x];
    }
    RunEndAt(s, x, x + |w|, inClass);
  }

  /** A well-formed segment laid out at `i`, not followed by a digit, is the match at `i`. */
  lemma {:induction false} LaidOutMatches(s: string, i: nat, r: PrRef, nameChar: char -> bool)
    requires !nameChar('/')
    requires IsName(r.owner, nameChar) && IsName(r.repo, nameChar) && IsDigitString(r.prNumber)
    requires LaidOut(s, i, r)
    requires var d := i + |HOST| + |r.owner| + 1 + |r.repo| + |PULL| + |r.prNumber|; d == |s| || !IsDigit(s[d])
    ensures MatchAt(s, i, nameChar) == Some(r)
  {
    var b, c, d := LaidOutPieces(s, i, r);
    LaidOutRunEnds(s, i, b, c, d, r, nameChar);
    LaidOutRunsMatch(s, i, b, c, d, r, nameChar);
  }

  /** Where the three runs of a segment read off as slices end, when its parts are
      well formed and no digit follows it. */
  lemma {:induction false} LaidOutRunEnds(s: string, i: nat, b: nat, c: nat, d: nat, r: PrRef, nameChar: char -> bool)
    requires !nameChar('/')
    requires IsName(r.owner, nameChar) && IsName(r.repo, nameChar) && IsDigitString(r.prNumber)
    requires i + |HOST| < b < c - 1 && c + |PULL| < d <= |s|
    requires s[b] == '/' && s[c..c + |PULL|] == PULL
    requires r == PrRef(s[i + |HOST|..b], s[b + 1..c], s[c + |PULL|..d])
    requires d == |s| || !IsDigit(s[d])
    ensures RunEnd(s, i + |HOST|, nameChar) == b
    ensures RunEnd(s, b + 1, nameChar) == c
    ensures RunEnd(s, c + |PULL|, IsDigit) == d
  {
    assert s[c] == s[c..c + |PULL|][0];
    RunOverWord(s, i + |HOST|, r.owner, nameChar);
    RunOverWord(s, b + 1, r.repo, nameChar);
    RunOverWord(s, c + |PULL|, r.prNumber, IsDigit);
  }

  /** A segment read off as slices, whose runs end at its own boundaries, is the match. */
  lemma {:induction false} LaidOutRunsMatch(s: string, i: nat, b: nat, c: nat, d: nat, r: PrRef, nameChar: char -> bool)
    requires !nameChar('/')
    requires i + |HOST| < b < c - 1 && c + |PULL| < d <= |s|
    requires s[i..i + |HOST|] == HOST && s[b] == '/' && s[c..c + |PULL|] == PULL
    requires r == PrRef(s[i + |HOST|..b], s[b + 1..c], s[c + |PULL|..d])
    requires RunEnd(s, i + |HOST|, nameChar) == b
    requires RunEnd(s, b + 1, nameChar) == c
    requires RunEnd(s, c + |PULL|, IsDigit) == d
    ensures MatchAt(s, i, nameChar) == Some(r)
  {
    MatchAtParts(s, i, b, c, d, nameChar);
  }

  /** A single well-formed segment is matched at its own position with exactly its
      three parts. */
  lemma {:induction false} SegmentMatches(prefix: string, r: PrRef, suffix: string, nameChar: char -> bool)
    requires !nameChar('/')
    requires IsName(r.owner, nameChar) && IsName(r.repo, nameChar) && IsDigitString(r.prNumber)
    requires suffix == [] || !IsDigit(suffix[0])
    ensures MatchAt(Url(prefix, r, suffix), |prefix|, nameChar) == Some(r)
  {
    var s := Url(prefix, r, suffix);
    UrlSlices(prefix, r, suffix);
    var d := |prefix| + |Segment(r)|;
    if d < |s| {
      assert s[d] == s[d..][0];
    }
    LaidOutMatches(s, |prefix|, r, nameChar);
  }

  /** The longest name run from `a` stops at a foreign character of `w` laid out
      there, so it is not followed by `/`. */
  lemma {:induction false} RunStopsInside(s: string, a: nat, w: string, t: nat, nameChar: char -> bool)
    requires a + |w| <= |s| && s[a..a + |w|] == w
    requires 0 <= t < |w| && !nameChar(w[t])
    requires forall k :: 0 <= k < |w| ==> w[k] != '/'
    ensures RunEnd(s, a, nameChar) <= a + t
    ensures s[RunEnd(s, a, nameChar)] != '/'
  {
    RunEndIsLongest(s, a, nameChar);
    assert s[a + t] == s[a..a + |w|][t];
    var e := RunEnd(s, a, nameChar);
    assert s[e] == s[a..a + |w|][e - a];
  }

  /** With a foreign character in the owner, the owner run is not followed by `/`. */
  lemma {:induction false} ForeignOwnerFails(s: string, i: nat, owner: string, t: nat, nameChar: char -> bool)
    requires !nameChar('/')
    requires i + |HOST| + |owner| <= |s| && s[i + |HOST|..i + |HOST| + |owner|] == owner
    requires 0 <= t < |owner| && !nameChar(owner[t])
    requires forall k :: 0 <= k < |owner| ==> owner[k] != '/'
    ensures MatchAt(s, i, nameChar).None?
  {
    RunStopsInside(s, i + |HOST|, owner, t, nameChar);
    NoSlashAfterOwner(s, i, nameChar);
  }

  /** With a name-class owner followed by `/` and a foreign character in the
      repository, the repository run is not followed by `/pull/`. */
  lemma {:induction false} ForeignRepoFails(s: string, i: nat, b: nat, repo: string, t: nat, nameChar: char -> bool)
    requires !nameChar('/')
    requires i + |HOST| <= b && b + 1 + |repo| <= |s|
    requires forall k :: i + |HOST| <= k < b ==> nameChar(s[k])
    requires s[b] == '/' && s[b + 1..b + 1 + |repo|] == repo
    requires 0 <= t < |repo| && !nameChar(repo[t])
    requires forall k :: 0 <= k < |repo| ==> repo[k] != '/'
    ensures MatchAt(s, i, nameChar).None?
  {
    RunEndAt(s, i + |HOST|, b, nameChar);
    RunStopsInside(s, b + 1, repo, t, nameChar);
    NoPullAfterRepo(s, i, b, nameChar);
  }

  /** A segment laid out at `i` whose owner or repository has a character outside the
      name class (and no `/`) does not match there. */
  lemma {:induction false} LaidOutFailsOnForeignChar(s: string, i: nat, r: PrRef, nameChar: char -> bool)
    requires !nameChar('/')
    requires IsName(r.owner, NotSlash) && IsName(r.repo, NotSlash)
    requires !IsName(r.owner, nameChar) || !IsName(r.repo, nameChar)
    requires LaidOut(s, i, r)
    ensures MatchAt(s, i, nameChar).None?
  {
    if !IsName(r.owner, nameChar) {
      LaidOutForeignOwner(s, i, r.owner, nameChar);
    } else {
      LaidOutForeignRepo(s, i, r, nameChar);
    }
  }

  lemma {:induction false} LaidOutForeignOwner(s: string, i: nat, owner: string, nameChar: char -> bool)
    requires !nameChar('/')
    requires IsName(owner, NotSlash) && !IsName(owner, nameChar)
    requires i + |HOST| + |owner| <= |s| && s[i + |HOST|..i + |HOST| + |owner|] == owner
    ensures MatchAt(s, i, nameChar).None?
  {
    var t :| 0 <= t < |owner| && !nameChar(owner[t]);
    ForeignOwnerFails(s, i, owner, t, nameChar);
  }

  lemma {:induction false} LaidOutForeignRepo(s: string, i: nat, r: PrRef, nameChar: char -> bool)
    requires !nameChar('/')
    requires IsName(r.owner, nameChar) && IsName(r.repo, NotSlash) && !IsName(r.repo, nameChar)
    requires LaidOut(s, i, r)
    ensures MatchAt(s, i, nameChar).None?
  {
    var a := i + |HOST|;
    var b := a + |r.owner|;
    forall k | a <= k < b ensures nameChar(s[k]) {
      assert s[k] == s[a..b][k - a];
    }
    var t :| 0 <= t < |r.repo| && !nameChar(r.repo[t]);
    ForeignRepoFails(s, i, b, r.repo, t, nameChar);
  }

  lemma {:induction false} SegmentFailsOnForeignChar(prefix: string, r: PrRef, suffix: string, nameChar: char -> bool)
    requires !nameChar('/')
    requires IsName(r.owner, NotSlash) && IsName(r.repo, NotSlash)
    requires !IsName(r.owner, nameChar) || !IsName(r.repo, nameChar)
    ensures MatchAt(Url(prefix, r, suffix), |prefix|, nameChar).None?
  {
    UrlSlices(prefix, r, suffix);
    LaidOutFailsOnForeignChar(Url(prefix, r, suffix), |prefix|, r, nameChar);
  }

  /** Every match starts with `g`. */
  lemma NoMatchOffG(s: string, j: nat, nameChar: char -> bool)
    requires j <= |s| && !nameChar('/')
    requires j == |s| || s[j] != 'g'
    ensures MatchAt(s, j, nameChar).None?
  {
  }

  /** In a URL whose only `g` is the one of `github.com/`, the match, if any, is
      the one at that segment. */
  lemma {:induction false} SingleSegment(prefix: string, r: PrRef, suffix: string, nameChar: char -> bool)
    requires !nameChar('/')
    requires 'g' !in prefix && 'g' !in r.owner && 'g' !in r.repo && 'g' !in r.prNumber && 'g' !in suffix
    ensures Find(Url(prefix, r, suffix), nameChar) == MatchAt(Url(prefix, r, suffix), |prefix|, nameChar)
  {
    var s := Url(prefix, r, suffix);
    // Everything after the `g` of `github.com/`.
    var rest := "ithub.com/" + r.owner + "/" + r.repo + PULL + r.prNumber + suffix;
    assert HOST == "g" + "ithub.com/";
    assert s == prefix + "g" + rest;
    assert 'g' !in rest;
    forall j | 0 <= j <= |s| && j != |prefix|
      ensures MatchAt(s, j, nameChar).None?
    {
      if j < |prefix| {
        assert s[j] == prefix[j];
      } else if j < |s| {
        assert s[j] == rest[j - |prefix| - 1];
      }
      NoMatchOffG(s, j, nameChar);
    }
    OnlyMatch(s, |prefix|, nameChar);
  }

  /** When the match at `k` is the first one, the search returns it. */
  lemma FirstMatchFound(s: string, k: nat, nameChar: char -> bool)
    requires k <= |s| && !nameChar('/')
    requires MatchAt(s, k, nameChar).Some?
    requires forall j :: 0 <= j < k ==> MatchAt(s, j, nameChar).None?
    ensures Find(s, nameChar) == MatchAt(s, k, nameChar)
  {
    assert FirstMatch(s, 0, nameChar) == k;
  }

  /** No match starts inside a prefix without `g`. */
  lemma {:induction false} NoMatchInPrefix(prefix: string, r: PrRef, suffix: string, nameChar: char -> bool)
    requires 'g' !in prefix && !nameChar('/')
    ensures forall j :: 0 <= j < |prefix| ==> MatchAt(Url(prefix, r, suffix), j, nameChar).None?
  {
    var s := Url(prefix, r, suffix);
    forall j | 0 <= j < |prefix|
      ensures MatchAt(s, j, nameChar).None?
    {
      assert s[j] == prefix[j];
      NoMatchOffG(s, j, nameChar);
    }
  }

  /** Round trip: the parser recovers owner, repository and number from a URL built
      around them, whatever scheme or host prefix comes before (as long as it cannot
      start a match of its own) and whatever follows the digits. */
  lemma {:induction false} ParseRoundTrip(prefix: string, r: PrRef, suffix: string)
    requires IsName(r.owner, NotSlash) && IsName(r.repo, NotSlash) && IsDigitString(r.prNumber)
    requires 'g' !in prefix
    requires suffix == [] || !IsDigit(suffix[0])
    ensures ParseGitHubPRUrl(Url(prefix, r, suffix)) == Ok(r)
  {
    var s := Url(prefix, r, suffix);
    SegmentMatches(prefix, r, suffix, NotSlash);
    NoMatchInPrefix(prefix, r, suffix, NotSlash);
    FirstMatchFound(s, |prefix|, NotSlash);
  }

  /** The bare form `github.com/<owner>/<repo>/pull/<number>`. */
  lemma PlainUrlRoundTrip(r: PrRef)
    requires IsName(r.owner, NotSlash) && IsName(r.repo, NotSlash) && IsDigitString(r.prNumber)
    ensures ParseGitHubPRUrl(Segment(r)) == Ok(r)
  {
    ParseRoundTrip([], r, []);
    assert Url([], r, []) == Segment(r);
  }

  // ---------------------------------------------------------------------------
  // Contributions and their statistics

  datatype ContributionStatus = Pending | Approved | Rejected

  datatype Contribution = Contribution(
    id: int,
    repository: string,
    issueNumber: string,
    issueTitle: string,
    issueUrl: string,
    amount: int,
    status: ContributionStatus)

  datatype ContributorStats = ContributorStats(totalEarnings: int, totalContributions: nat, activeContributions: nat)

  function Amount(c: Contribution): int {
    c.amount
  }

  predicate IsPending(c: Contribution) {
    c.status == Pending
  }

  predicate IsNotPending(c: Contribution) {
    c.status != Pending
  }

  /** The `stats` object. */
  function Stats(contributions: seq<Contribution>): (st: ContributorStats)
    ensures st.totalContributions == |contributions|
    ensures st.activeContributions <= st.totalContributions
    ensures st.activeContributions == |Filter(contributions, IsPending)|
    ensures st.totalEarnings == SumOf(contributions, Amount)
  {
    FilterMembership(contributions, IsPending);
    ContributorStats(SumOf(contributions, Amount), |contributions|, |Filter(contributions, IsPending)|)
  }

  /** Earnings count every contribution, pending or not (so rejected ones too), and
      active plus the rest is the whole list. */
  lemma {:induction false} StatsCoverEveryStatus(contributions: seq<Contribution>)
    ensures Stats(contributions).totalEarnings
         == SumOf(Filter(contributions, IsPending), Amount) + SumOf(Filter(contributions, IsNotPending), Amount)
    ensures Stats(contributions).activeContributions + |Filter(contributions, IsNotPending)| == Stats(contributions).totalContributions
  {
    SumOfSplit(contributions, IsPending, IsNotPending, Amount);
    FilterCountSplit(contributions, IsPending, IsNotPending);
  }

  /** The mock list served by `fetchContributions`. */
  const MOCK_CONTRIBUTIONS: seq<Contribution> := [
    Contribution(1, "owner/project-a", "42", "Fix memory leak in authentication module",
      "https://github.com/microsoft/WSL/issues/12568", 500, Pending),
    Contribution(2, "owner/project-b", "17", "Implement dark mode support",
      "https://github.com/microsoft/WSL/issues/12567", 300, Approved),
    Contribution(3, "owner/project-c", "8", "Add support for WebP images",
      "https://github.com/microsoft/WSL/issues/12566", 200, Rejected)
  ]

  lemma MockStats()
    ensures Stats(MOCK_CONTRIBUTIONS) == ContributorStats(1000, 3, 1)
  {
    assert MOCK_CONTRIBUTIONS[1..][1..][1..] == [];
  }

  // ---------------------------------------------------------------------------
  // Claiming a pull request

  /** The reply to the pull-request lookup. */
  datatype PullReply = PullTransportError(message: string) | PullResponse(ok: bool)

  /** The mutation's outcome and the URL it fetched, if any. */
  datatype Claim = Claim(result: Result<PrRef, string>, fetched: Option<string>)

  const NOT_FOUND := "Pull request not found or inaccessible"

  function PullApiUrl(r: PrRef): string {
    "https://api.github.com/repos/" + r.owner + "/" + r.repo + "/pulls/" + r.prNumber
  }

  /** `claimPRMutation`'s function: parse first, then fetch the pull request. */
  function ClaimPR(prUrl: string, reply: PullReply): (c: Claim)
    // An unparsable URL fails with the format message before any request.
    ensures ParseGitHubPRUrl(prUrl).Err? ==> c == Claim(Err("Invalid GitHub PR URL format"), None)
    ensures c.fetched.Some? <==> ParseGitHubPRUrl(prUrl).Ok?
    ensures c.fetched.Some? ==> c.fetched.value == PullApiUrl(ParseGitHubPRUrl(prUrl).value)
    // The claim succeeds exactly when the URL parses and the lookup answers ok, with the parsed parts.
    ensures c.result.Ok? <==> ParseGitHubPRUrl(prUrl).Ok? && reply == PullResponse(true)
    ensures c.result.Ok? ==> c.result.value == ParseGitHubPRUrl(prUrl).value
    ensures ParseGitHubPRUrl(prUrl).Ok? && reply == PullResponse(false) ==> c.result == Err(NOT_FOUND)
    ensures ParseGitHubPRUrl(prUrl).Ok? && reply.PullTransportError? ==> c.result == Err(reply.message)
  {
    match ParseGitHubPRUrl(prUrl)
    case Err(e) => Claim(Err(e), None)
    case Ok(r) =>
      var fetched := Some(PullApiUrl(r));
      match reply
      case PullTransportError(message) => Claim(Err(message), fetched)
      case PullResponse(ok) => Claim(if ok then Ok(r) else Err(NOT_FOUND), fetched)
  }
}
