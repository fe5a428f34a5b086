/** The submit sequence shared by the three form dialogs
    (components/dialogs/ClaimPRDialog.tsx, CreateGrantDialog.tsx and
    ImportRepositoryDialog.tsx): the form's resolver validates first; valid data
    goes to the parent's handler with `isLoading` set; success resets the form and
    closes the dialog, failure is swallowed and leaves both; `isLoading` is cleared
    in `finally`. */
module FormDialog {
  import opened Common

  /** The parts of a dialog the submit sequence changes: the `open` prop the parent
      controls through `onOpenChange`, the local `isLoading` flag and the form values. */
  datatype DialogState<F> = DialogState(open: bool, isLoading: bool, values: F)

  /** The state after one press of the submit button. */
  function AfterSubmit<F>(st: DialogState<F>, defaults: F, valid: bool, succeeds: bool): (r: DialogState<F>)
    // Invalid data never reaches the handler, and nothing changes.
    ensures !valid ==> r == st
    // Whatever the handler does, loading is over afterwards.
    ensures valid ==> !r.isLoading
    // Success resets and closes; failure keeps the entered values and the dialog as they were.
    ensures valid && succeeds ==> !r.open && r.values == defaults
    ensures valid && !succeeds ==> r.open == st.open && r.values == st.values
  {
    if !valid then st
    else if succeeds then DialogState(false, false, defaults)
    else st.(isLoading := false)
  }

  class Dialog<F> {
    var open: bool
    var isLoading: bool
    var values: F
    const defaults: F
    /** The form schema as a test on the values. */
    const valid: F -> bool

    /** A freshly mounted dialog holds the schema's default values. */
    constructor (defaults: F, valid: F -> bool, open: bool)
      ensures this.defaults == defaults && this.valid == valid
      ensures this.open == open && !isLoading && values == defaults
    {
      this.defaults := defaults;
      this.valid := valid;
      this.open := open;
      isLoading := false;
      values := defaults;
    }

    /** Typing into the form. */
    method Edit(newValues: F)
      modifies this
      ensures values == newValues && open == old(open) && isLoading == old(isLoading)
    {
      values := newValues;
    }

    /** `onOpenChange`, from the parent or the Cancel button. */
    method SetOpen(newOpen: bool)
      modifies this
      ensures open == newOpen && values == old(values) && isLoading == old(isLoading)
    {
      open := newOpen;
    }

    /** `form.handleSubmit(handleSubmit)`: `succeeds` is whether the parent's handler
        resolves; `sent` is the data it receives, if called, and `loadingWhileSent`
        the flag's value while it runs. */
    method Submit(succeeds: bool) returns (sent: Option<F>, loadingWhileSent: bool)
      modifies this
      ensures sent == if valid(old(values)) then Some(old(values)) else None
      ensures sent.Some? ==> loadingWhileSent
      ensures DialogState(open, isLoading, values)
           == AfterSubmit(DialogState(old(open), old(isLoading), old(values)), defaults, valid(old(values)), succeeds)
    {
      if !valid(values) {
        sent := None;
        loadingWhileSent := isLoading;
        return;
      }
      isLoading := true;
      sent := Some(values);
      loadingWhileSent := isLoading;
      if succeeds {
        values := defaults;
        open := false;
      }
      isLoading := false;
    }
  }
}
