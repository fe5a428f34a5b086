/** The claim dialog's form (components/dialogs/ClaimPRDialog.tsx): a URL that
    contains `github.com/<owner>/<repo>/pull/<digits>` with owner and repository
    drawn from `[\w-]`. */
module ClaimPRDialog {
  import opened Common
  import opened ContributorContext
  import FormDialog

  datatype ClaimForm = ClaimForm(prUrl: string)

  const DEFAULTS := ClaimForm("")

  /** `[\w-]`: ASCII letters, digits, `_` and `-`. */
  predicate IsWordOrDash(c: char) {
    IsAsciiLower(c) || IsAsciiUpper(c) || IsDigit(c) || c == '_' || c == '-'
  }

  /** The `.regex(...)` rule: the pattern occurs somewhere in the text. */
  predicate MatchesClaimPattern(url: string) {
    Find(url, IsWordOrDash).Some?
  }

  /** The schema. `isUrl` is zod's `.url()` check, which is not modelled. */
  predicate ClaimFormValid(isUrl: string -> bool, f: ClaimForm) {
    isUrl(f.prUrl) && MatchesClaimPattern(f.prUrl)
  }

  /** A freshly mounted claim dialog. */
  method NewClaimDialog(isUrl: string -> bool, open: bool) returns (d: FormDialog.Dialog<ClaimForm>)
    ensures fresh(d)
    ensures d.values == DEFAULTS && d.open == open && !d.isLoading
    ensures forall f :: d.valid(f) == ClaimFormValid(isUrl, f)
  {
    d := new FormDialog.Dialog(DEFAULTS, f => ClaimFormValid(isUrl, f), open);
  }

  /** A pattern match with the narrow class is also a match with `[^\/]`, with the
      same groups, because the narrow runs stop at the same `/`. */
  lemma {:induction false} NarrowMatchIsParserMatch(s: string, i: nat)
    requires i <= |s|
    requires MatchAt(s, i, IsWordOrDash).Some?
    ensures MatchAt(s, i, NotSlash) == MatchAt(s, i, IsWordOrDash)
  {
    var b, c, d := MatchAtShape(s, i, IsWordOrDash);
    RunEndIsLongest(s, i + |HOST|, IsWordOrDash);
    RunEndAt(s, i + |HOST|, b, NotSlash);
    RunEndIsLongest(s, b + 1, IsWordOrDash);
    assert s[c] == s[c..c + |PULL|][0];
    RunEndAt(s, b + 1, c, NotSlash);
    MatchAtParts(s, i, b, c, d, NotSlash);
  }

  /** Every URL the form accepts is parsed by `parseGitHubPRUrl`. */
  lemma {:induction false} AcceptedUrlParses(isUrl: string -> bool, f: ClaimForm)
    requires ClaimFormValid(isUrl, f)
    ensures ParseGitHubPRUrl(f.prUrl).Ok?
  {
    var j := FirstMatch(f.prUrl, 0, IsWordOrDash);
    NarrowMatchIsParserMatch(f.prUrl, j);
  }

  /** An accepted URL contains a segment whose owner and repository are non-empty
      `[\w-]` names and whose number is all digits. */
  lemma {:induction false} AcceptedUrlShape(isUrl: string -> bool, f: ClaimForm)
    requires ClaimFormValid(isUrl, f)
    ensures exists r: PrRef ::
      IsName(r.owner, IsWordOrDash) && IsName(r.repo, IsWordOrDash) && IsDigitString(r.prNumber) && Includes(f.prUrl, Segment(r))
  {
    var j := FirstMatch(f.prUrl, 0, IsWordOrDash);
    MatchCovers(f.prUrl, j, IsWordOrDash);
    MatchAtGroups(f.prUrl, j, IsWordOrDash);
    var r := MatchAt(f.prUrl, j, IsWordOrDash).value;
    assert 0 <= j <= |f.prUrl| - |Segment(r)| && StartsAt(f.prUrl, j, Segment(r));
  }

  /** When the only `github.com/` segment has a character outside `[\w-]` in its
      owner or repository (a `.` as in `next.js`), the form rejects the URL even
      though the parser would accept it. */
  lemma {:induction false} ForeignNameRejected(isUrl: string -> bool, prefix: string, r: PrRef, suffix: string)
    requires IsName(r.owner, NotSlash) && IsName(r.repo, NotSlash) && IsDigitString(r.prNumber)
    requires !IsName(r.owner, IsWordOrDash) || !IsName(r.repo, IsWordOrDash)
    requires 'g' !in prefix && 'g' !in r.owner && 'g' !in r.repo && 'g' !in r.prNumber && 'g' !in suffix
    requires suffix == [] || !IsDigit(suffix[0])
    ensures !ClaimFormValid(isUrl, ClaimForm(Url(prefix, r, suffix)))
    ensures ParseGitHubPRUrl(Url(prefix, r, suffix)) == Ok(r)
  {
    SingleSegment(prefix, r, suffix, IsWordOrDash);
    SegmentFailsOnForeignChar(prefix, r, suffix, IsWordOrDash);
    ParseRoundTrip(prefix, r, suffix);
  }

  /** `https://github.com/vercel/next.js/pull/1`, written as its scheme and its segment. */
  const DOTTED_URL := "https://" + "github.com/vercel/next.js/pull/1"

  /** The example URL laid out around its segment. */
  lemma DottedRepositoryUrl()
    ensures Url("https://", PrRef("vercel", "next.js", "1"), "") == DOTTED_URL
  {
    assert Segment(PrRef("vercel", "next.js", "1")) == "github.com/vercel/next.js/pull/1";
  }

  /** The groups of the example: the repository has a `.`. */
  lemma DottedRepositoryPieces()
    ensures var r := PrRef("vercel", "next.js", "1");
      && IsName(r.owner, NotSlash) && IsName(r.repo, NotSlash) && IsDigitString(r.prNumber)
      && !IsName(r.repo, IsWordOrDash)
  {
    assert !IsWordOrDash("next.js"[4]);
  }

  lemma DottedRepositoryHasOneG()
    ensures 'g' !in "https://" && 'g' !in "vercel" && 'g' !in "next.js" && 'g' !in "1" && 'g' !in ""
  {
  }

  /** `https://github.com/vercel/next.js/pull/1` is refused by the form and parsed
      by the context. */
  lemma DottedRepositoryExample(isUrl: string -> bool)
    ensures !ClaimFormValid(isUrl, ClaimForm(DOTTED_URL))
    ensures ParseGitHubPRUrl(DOTTED_URL) == Ok(PrRef("vercel", "next.js", "1"))
  {
    DottedRepositoryUrl();
    DottedRepositoryPieces();
    DottedRepositoryHasOneG();
    ForeignNameRejected(isUrl, "https://", PrRef("vercel", "next.js", "1"), "");
  }

  /** The untouched form is rejected, so a reset form cannot be resubmitted. */
  lemma DefaultsRejected(isUrl: string -> bool)
    ensures !ClaimFormValid(isUrl, DEFAULTS)
  {
    assert FirstMatch("", 0, IsWordOrDash) == 1;
  }
}
