/** One contribution's card (components/contributions/ContributionCard.tsx): the
    status badge's colour, icon and label, and the optional completed-date line. */
module ContributionCard {
  import opened Common

  datatype Status = InProgress | UnderReview | Completed | Rejected

  /** The status text the card receives; the two-word texts are written as their
      words around the `_`. */
  function StatusText(status: Status): string {
    match status
    case InProgress => "in" + "_" + "progress"
    case UnderReview => "under" + "_" + "review"
    case Completed => "completed"
    case Rejected => "rejected"
  }

  datatype BadgeColor = Success | Default | Warning | Destructive

  datatype Icon = CheckCircle | Clock | GitPullRequest | AlertCircle

  /** `getStatusColor`. */
  function StatusColor(status: Status): BadgeColor {
    match status
    case Completed => Success
    case InProgress => Default
    case UnderReview => Warning
    case Rejected => Destructive
  }

  /** `getStatusIcon`. */
  function StatusIcon(status: Status): Icon {
    match status
    case Completed => CheckCircle
    case InProgress => Clock
    case UnderReview => GitPullRequest
    case Rejected => AlertCircle
  }

  /** Colour and icon each tell the four statuses apart. */
  lemma BadgeDistinguishesStatus(a: Status, b: Status)
    ensures StatusColor(a) == StatusColor(b) <==> a == b
    ensures StatusIcon(a) == StatusIcon(b) <==> a == b
  {
  }

  /** `s.replace(from, to)` with a character pattern: only the first occurrence. */
  function ReplaceFirst(s: string, from: char, to: char): (r: string)
    ensures |r| == |s|
  {
    if s == "" then ""
    else if s[0] == from then [to] + s[1..]
    else [s[0]] + ReplaceFirst(s[1..], from, to)
  }

  /** Without an occurrence nothing changes. */
  lemma {:induction false} ReplaceFirstAbsent(s: string, from: char, to: char)
    requires from !in s
    ensures ReplaceFirst(s, from, to) == s
  {
    if s != "" {
      ReplaceFirstAbsent(s[1..], from, to);
    }
  }

  /** The first occurrence, at `k`, becomes `to`; everything before and after it stays. */
  lemma {:induction false} ReplaceFirstAt(s: string, from: char, to: char, k: nat)
    requires k < |s| && s[k] == from && from !in s[..k]
    ensures ReplaceFirst(s, from, to) == s[..k] + [to] + s[k + 1..]
  {
    if k > 0 {
      assert s[0] == s[..k][0];
      var tail := s[1..];
      assert tail[..k - 1] == s[1..k];
      ReplaceFirstAt(tail, from, to, k - 1);
      assert s[..k] == [s[0]] + tail[..k - 1];
      assert tail[k..] == s[k + 1..];
    }
  }

  /** The badge label. */
  function Label(status: Status): string {
    Upper(ReplaceFirst(StatusText(status), '_', ' '))
  }

  lemma ReplaceSplitWord(first: string, second: string)
    requires '_' !in first
    ensures ReplaceFirst(first + "_" + second, '_', ' ') == first + " " + second
  {
    var s := first + "_" + second;
    assert s[..|first|] == first && s[|first|] == '_' && s[|first| + 1..] == second;
    ReplaceFirstAt(s, '_', ' ', |first|);
  }

  lemma LabelWord(s: string, shown: string)
    requires '_' !in s && Upper(s) == shown
    ensures Upper(ReplaceFirst(s, '_', ' ')) == shown
  {
    ReplaceFirstAbsent(s, '_', ' ');
  }

  lemma LabelTwoWords(first: string, second: string, shown: string)
    requires '_' !in first && Upper(first + " " + second) == shown
    ensures Upper(ReplaceFirst(first + "_" + second, '_', ' ')) == shown
  {
    ReplaceSplitWord(first, second);
  }

  /** The four badge labels. */
  lemma LabelValue(status: Status)
    ensures Label(status) == match status
      case InProgress => "IN PROGRESS"
      case UnderReview => "UNDER REVIEW"
      case Completed => "COMPLETED"
      case Rejected => "REJECTED"
  {
    match status
    case InProgress =>
      LabelTwoWords("in", "progress", "IN PROGRESS");
    case UnderReview =>
      LabelTwoWords("under", "review", "UNDER REVIEW");
    case Completed =>
      LabelWord(StatusText(status), "COMPLETED");
    case Rejected =>
      LabelWord(StatusText(status), "REJECTED");
  }

  /** The completed-date line: shown only for a non-empty `completedDate`. */
  function CompletedLine(completedDate: Option<string>): (line: Option<string>)
    ensures line.Some? <==> Truthy(completedDate)
    ensures line.Some? ==> line.value == completedDate.value
  {
    if Truthy(completedDate) then Some(completedDate.value) else None
  }
}
