/** One grant's card (components/GrantCard.tsx): the status badge with its variant
    and its formatted text, the optional progress bar, and the single action button
    that leads to the grant's page. */
module GrantCard {
  import opened Common
  import opened MaintainerContext

  /** The status text the card receives; `pending_allocation` is written as its two
      words around the `_`. */
  function StatusText(status: GrantStatus): string {
    match status
    case Active => "active"
    case Completed => "completed"
    case PendingAllocation => "pending" + "_" + "allocation"
  }

  // ---------------------------------------------------------------------------
  // formatStatus: split on '_', capitalise each word, join with ' '

  /** `s.split(sep)`: the pieces between separators, always at least one. */
  function Split(s: string, sep: char): (parts: seq<string>)
    ensures |parts| >= 1
    ensures forall i :: 0 <= i < |parts| ==> sep !in parts[i]
  {
    if s == [] then [""]
    else
      var rest := Split(s[1..], sep);
      if s[0] == sep then [""] + rest
      else [[s[0]] + rest[0]] + rest[1..]
  }

  /** `parts.join(sep)`. */
  function Join(parts: seq<string>, sep: char): string
  {
    if parts == [] then ""
    else if |parts| == 1 then parts[0]
    else parts[0] + [sep] + Join(parts[1..], sep)
  }

  /** `word.charAt(0).toUpperCase() + word.slice(1)`. */
  function Capitalize(word: string): string {
    if word == "" then "" else [UpperChar(word[0])] + word[1..]
  }

  function CapitalizeAll(words: seq<string>): (r: seq<string>)
    ensures |r| == |words|
  {
    seq(|words|, i requires 0 <= i < |words| => Capitalize(words[i]))
  }

  /** `formatStatus`. */
  function FormatStatus(status: string): string {
    Join(CapitalizeAll(Split(status, '_')), ' ')
  }

  /** The same text read left to right: an underscore becomes a space, and a letter
      at the start of a word (the start of the text, or just after an underscore) is
      upper-cased. */
  function Formatted(s: string, atWordStart: bool): string {
    if s == "" then ""
    else [if s[0] == '_' then ' ' else if atWordStart then UpperChar(s[0]) else s[0]] + Formatted(s[1..], s[0] == '_')
  }

  /** The split, capitalise and join of the source, with the first word left as it is. */
  function FormatRest(status: string): string {
    var parts := Split(status, '_');
    Join([parts[0]] + CapitalizeAll(parts[1..]), ' ')
  }

  lemma JoinConsChar(c: char, first: string, rest: seq<string>, sep: char)
    ensures Join([[c] + first] + rest, sep) == [c] + Join([first] + rest, sep)
  {
    if rest != [] {
      assert ([[c] + first] + rest)[1..] == rest;
      assert ([first] + rest)[1..] == rest;
    }
  }

  lemma JoinEmptyFirst(rest: seq<string>, sep: char)
    requires rest != []
    ensures Join([""] + rest, sep) == [sep] + Join(rest, sep)
  {
    assert ([""] + rest)[1..] == rest;
  }

  /** `formatStatus` agrees with the left-to-right reading. */
  lemma {:induction false} FormatStatusIsFormatted(status: string)
    ensures FormatStatus(status) == Formatted(status, true)
    ensures FormatRest(status) == Formatted(status, false)
  {
    if status != [] {
      FormatStatusIsFormatted(status[1..]);
      if status[0] == '_' {
        FormatUnderscoreStep(status);
      } else {
        FormatLetterStep(status);
      }
    }
  }

  /** The step of `FormatStatusIsFormatted` for a leading `_`. */
  lemma {:induction false} FormatUnderscoreStep(status: string)
    requires status != [] && status[0] == '_'
    requires FormatStatus(status[1..]) == Formatted(status[1..], true)
    ensures FormatStatus(status) == Formatted(status, true)
    ensures FormatRest(status) == Formatted(status, false)
  {
    var rest := Split(status[1..], '_');
    SplitUnderscore(status);
    CapitalizeUnderscoreStep(rest);
  }

  /** How `split` treats a leading `_`: it closes an empty first piece. */
  lemma {:induction false} SplitUnderscore(status: string)
    requires status != [] && status[0] == '_'
    ensures Split(status, '_') == [""] + Split(status[1..], '_')
  {
  }

  /** Capitalising and joining the pieces after an empty first piece. */
  lemma {:induction false} CapitalizeUnderscoreStep(rest: seq<string>)
    requires rest != []
    ensures Join(CapitalizeAll([""] + rest), ' ') == [' '] + Join(CapitalizeAll(rest), ' ')
    ensures Join([([""] + rest)[0]] + CapitalizeAll(([""] + rest)[1..]), ' ') == [' '] + Join(CapitalizeAll(rest), ' ')
  {
    assert CapitalizeAll([""] + rest) == [""] + CapitalizeAll(rest);
    JoinEmptyFirst(CapitalizeAll(rest), ' ');
    assert ([""] + rest)[1..] == rest;
  }

  /** How `split` treats a leading character other than `_`: it starts the first piece. */
  lemma {:induction false} SplitLetter(status: string)
    requires status != [] && status[0] != '_'
    ensures var rest := Split(status[1..], '_');
      Split(status, '_') == [[status[0]] + rest[0]] + rest[1..]
  {
  }

  /** The step of `FormatStatusIsFormatted` for a leading character other than `_`. */
  lemma {:induction false} FormatLetterStep(status: string)
    requires status != [] && status[0] != '_'
    requires FormatRest(status[1..]) == Formatted(status[1..], false)
    ensures FormatStatus(status) == Formatted(status, true)
    ensures FormatRest(status) == Formatted(status, false)
  {
    var rest := Split(status[1..], '_');
    SplitLetter(status);
    CapitalizeLetterStep(status[0], rest);
    JoinConsChar(status[0], rest[0], CapitalizeAll(rest[1..]), ' ');
  }

  /** Capitalising the pieces when the first one gained a leading letter. */
  lemma {:induction false} CapitalizeLetterStep(c: char, rest: seq<string>)
    requires rest != []
    ensures Join(CapitalizeAll([[c] + rest[0]] + rest[1..]), ' ')
         == [UpperChar(c)] + Join([rest[0]] + CapitalizeAll(rest[1..]), ' ')
  {
    var parts := [[c] + rest[0]] + rest[1..];
    assert parts[1..] == rest[1..];
    assert CapitalizeAll(parts) == [[UpperChar(c)] + rest[0]] + CapitalizeAll(rest[1..]);
    JoinConsChar(UpperChar(c), rest[0], CapitalizeAll(rest[1..]), ' ');
  }

  lemma {:induction false} FormattedShape(s: string, atWordStart: bool)
    ensures |Formatted(s, atWordStart)| == |s|
    ensures '_' !in Formatted(s, atWordStart)
  {
    if s != "" {
      FormattedShape(s[1..], s[0] == '_');
    }
  }

  lemma {:induction false} InsideKeepsPlainText(t: string)
    requires '_' !in t
    ensures Formatted(t, false) == t
  {
    if t != "" {
      InsideKeepsPlainText(t[1..]);
    }
  }

  /** The formatted text has no underscore and the input's length, and formatting
      it again changes nothing. */
  lemma FormatStatusShape(status: string)
    ensures '_' !in FormatStatus(status)
    ensures |FormatStatus(status)| == |status|
    ensures FormatStatus(FormatStatus(status)) == FormatStatus(status)
  {
    FormatStatusIsFormatted(status);
    var t := Formatted(status, true);
    FormattedShape(status, true);
    FormatStatusIsFormatted(t);
    if t != "" {
      InsideKeepsPlainText(t[1..]);
      assert t[0] == UpperChar(t[0]);
    }
  }

  lemma FormattedWord(word: string)
    requires word != "" && '_' !in word
    ensures Formatted(word, true) == [UpperChar(word[0])] + word[1..]
  {
    InsideKeepsPlainText(word[1..]);
  }

  lemma {:induction false} FormattedInsideWord(word: string, tail: string)
    requires '_' !in word
    ensures Formatted(word + "_" + tail, false) == word + " " + Formatted(tail, true)
  {
    if word != "" {
      assert (word + "_" + tail)[1..] == word[1..] + "_" + tail;
      FormattedInsideWord(word[1..], tail);
    } else {
      assert ("_" + tail)[1..] == tail;
    }
  }

  lemma FormattedTwoWords(first: string, second: string)
    requires first != "" && '_' !in first && second != "" && '_' !in second
    ensures Formatted(first + "_" + second, true)
         == [UpperChar(first[0])] + first[1..] + " " + [UpperChar(second[0])] + second[1..]
  {
    assert (first + "_" + second)[1..] == first[1..] + "_" + second;
    FormattedInsideWord(first[1..], second);
    FormattedWord(second);
  }

  lemma PendingText(s: string)
    requires s == "pending" + "_" + "allocation"
    ensures FormatStatus(s) == "Pending" + " " + "Allocation"
  {
    FormatStatusIsFormatted(s);
    FormattedTwoWords("pending", "allocation");
    assert [UpperChar('p')] + "ending" == "Pending";
    assert [UpperChar('a')] + "llocation" == "Allocation";
  }

  lemma OneWordText(s: string)
    requires s != "" && '_' !in s
    ensures FormatStatus(s) == [UpperChar(s[0])] + s[1..]
  {
    FormatStatusIsFormatted(s);
    FormattedWord(s);
  }

  /** The three statuses' badge texts. */
  lemma FormatStatusValue(status: GrantStatus)
    ensures FormatStatus(StatusText(status)) == match status
      case PendingAllocation => "Pending" + " " + "Allocation"
      case Active => "Active"
      case Completed => "Completed"
  {
    match status
    case PendingAllocation =>
      PendingText(StatusText(status));
    case Active =>
      OneWordText(StatusText(status));
    case Completed =>
      OneWordText(StatusText(status));
  }

  // ---------------------------------------------------------------------------
  // Badge, progress bar and action button

  datatype BadgeVariant = Default | Secondary | Outline

  /** `getBadgeVariant`. */
  function BadgeFor(status: GrantStatus): BadgeVariant {
    match status
    case Active => Default
    case Completed => Secondary
    case PendingAllocation => Outline
  }

  /** Each status has its own badge variant. */
  lemma BadgeDistinguishesStatus(a: GrantStatus, b: GrantStatus)
    ensures BadgeFor(a) == BadgeFor(b) <==> a == b
  {
  }

  /** The progress bar is shown unless the caller passes `false`. */
  function ShowsProgress(showProgress: Option<bool>): (shown: bool)
    ensures showProgress == None ==> shown
    ensures showProgress.Some? ==> shown == showProgress.value
  {
    match showProgress
    case None => true
    case Some(b) => b
  }

  datatype ActionButton = ActionButton(caption: string, outline: bool, target: string)

  /** `handleManageGrant`'s destination; `idText` is the grant id as JavaScript prints it. */
  function ManageTarget(idText: string): string {
    "/maintainer/grants/" + idText
  }

  /** The three conditional buttons, in page order. */
  function Actions(status: GrantStatus, idText: string): (buttons: seq<ActionButton>)
    // Exactly one button, and it leads to the grant's page.
    ensures |buttons| == 1
    ensures buttons[0].target == "/maintainer/grants/" + idText
    ensures buttons[0].caption == (match status
      case PendingAllocation => "Allocate Funds"
      case Active => "Manage Grant"
      case Completed => "View Details")
    ensures buttons[0].outline <==> status == Completed
  {
    (if status == PendingAllocation then [ActionButton("Allocate Funds", false, ManageTarget(idText))] else [])
    + (if status == Active then [ActionButton("Manage Grant", false, ManageTarget(idText))] else [])
    + (if status == Completed then [ActionButton("View Details", true, ManageTarget(idText))] else [])
  }
}
