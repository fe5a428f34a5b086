/** The create-grant dialog's form (components/dialogs/CreateGrantDialog.tsx): a
    chosen repository, an issue number and an amount written as plain digits, and a
    complexity from 1 to 5 shown with a word. */
module CreateGrantDialog {
  import opened Common
  import FormDialog

  datatype GrantForm = GrantForm(repository: string, issueNumber: string, amount: string, complexity: int)

  const DEFAULTS := GrantForm("", "", "", 3)

  /** The schema: `min(1)`, `/^\d+$/` twice, and `min(1).max(5)`. */
  predicate GrantFormValid(f: GrantForm) {
    |f.repository| >= 1 && IsDigitString(f.issueNumber) && IsDigitString(f.amount) && 1 <= f.complexity <= 5
  }

  /** The description under the slider. */
  function ComplexityLabel(complexity: int): (word: Option<string>)
    ensures word.Some? <==> 1 <= complexity <= 5
    ensures complexity == 1 ==> word == Some("Very Easy")
    ensures complexity == 2 ==> word == Some("Easy")
    ensures complexity == 3 ==> word == Some("Medium")
    ensures complexity == 4 ==> word == Some("Hard")
    ensures complexity == 5 ==> word == Some("Very Hard")
  {
    if complexity == 1 then Some("Very Easy")
    else if complexity == 2 then Some("Easy")
    else if complexity == 3 then Some("Medium")
    else if complexity == 4 then Some("Hard")
    else if complexity == 5 then Some("Very Hard")
    else None
  }

  /** A freshly mounted create-grant dialog. */
  method NewCreateGrantDialog(open: bool) returns (d: FormDialog.Dialog<GrantForm>)
    ensures fresh(d)
    ensures d.values == DEFAULTS && d.open == open && !d.isLoading
    ensures forall f :: d.valid(f) == GrantFormValid(f)
  {
    d := new FormDialog.Dialog(DEFAULTS, GrantFormValid, open);
  }

  /** The untouched form is rejected, though its complexity is the valid default 3. */
  lemma DefaultsRejected()
    ensures !GrantFormValid(DEFAULTS)
    ensures 1 <= DEFAULTS.complexity <= 5 && ComplexityLabel(DEFAULTS.complexity) == Some("Medium")
  {
  }

  /** A sign, a leading `#` or a decimal point makes a number field invalid. */
  lemma NonDigitNumbersRejected(f: GrantForm)
    requires f.issueNumber in {"#123", "-5", "1.5"} || f.amount in {"#123", "-5", "1.5"}
    ensures !GrantFormValid(f)
  {
    assert !IsDigit('#') && !IsDigit('-') && !IsDigit('.');
    assert "#123"[0] == '#' && "-5"[0] == '-' && "1.5"[1] == '.';
  }

  /** Every form that passes the schema has a complexity word to show. */
  lemma ValidFormHasLabel(f: GrantForm)
    requires GrantFormValid(f)
    ensures ComplexityLabel(f.complexity).Some?
  {
  }
}
