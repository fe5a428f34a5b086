/** The import dialog's form (components/dialogs/ImportRepositoryDialog.tsx): an
    owner and a repository name, both required. */
module ImportRepositoryDialog {
  import FormDialog

  datatype ImportForm = ImportForm(owner: string, repo: string)

  const DEFAULTS := ImportForm("", "")

  /** The schema: both fields `min(1)`. */
  predicate ImportFormValid(f: ImportForm) {
    |f.owner| >= 1 && |f.repo| >= 1
  }

  /** A freshly mounted import dialog. */
  method NewImportDialog(open: bool) returns (d: FormDialog.Dialog<ImportForm>)
    ensures fresh(d)
    ensures d.values == DEFAULTS && d.open == open && !d.isLoading
    ensures forall f :: d.valid(f) == ImportFormValid(f)
  {
    d := new FormDialog.Dialog(DEFAULTS, ImportFormValid, open);
  }

  /** The untouched form is rejected. */
  lemma DefaultsRejected()
    ensures !ImportFormValid(DEFAULTS)
  {
  }

  /** After a successful import the form is back to its defaults, so pressing
      Import again sends nothing and changes nothing. */
  lemma {:induction false} NoResubmitAfterSuccess(st: FormDialog.DialogState<ImportForm>, succeeds: bool)
    requires ImportFormValid(st.values)
    ensures var after := FormDialog.AfterSubmit(st, DEFAULTS, true, true);
      !after.open && !ImportFormValid(after.values)
      && FormDialog.AfterSubmit(after, DEFAULTS, ImportFormValid(after.values), succeeds) == after
  {
    DefaultsRejected();
  }
}
