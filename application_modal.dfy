/**
 * The application form dialog: a four-step wizard (Personal, Education,
 * Review, Submitted) over the form record, with the error map it shows and
 * the id it generates, writing each submission to the browser store.
 */
module Modal {
  import opened Wrappers
  import opened Types
  import opened Intake
  import opened Storage

  /** One mounted form dialog and the store it writes to. */
  class ApplicationModal {
    /** 1 Personal, 2 Education, 3 Review, 4 Submitted. */
    var step: int
    /** The id of the last submission, or empty. */
    var generatedId: string
    var form: FormData
    var errors: Errors
    /** The browser store shared with the applications list. */
    const store: LocalStore

    /** The wizard is on one of its four steps. */
    predicate Valid()
      reads this
    {
      1 <= step <= 4
    }

    /** A fresh dialog: step 1, no id, the initial form, no errors. */
    constructor(store: LocalStore)
      ensures Valid()
      ensures step == 1 && generatedId == "" && form == INITIAL_FORM && errors == map[]
      ensures this.store == store
    {
      step := 1;
      generatedId := "";
      form := INITIAL_FORM;
      errors := map[];
      this.store := store;
    }

    /** Opening the dialog restarts the wizard but keeps what was typed before. */
    method Open()
      modifies this
      ensures Valid()
      ensures step == 1 && generatedId == "" && errors == map[]
      ensures form == old(form)
    {
      step := 1;
      generatedId := "";
      errors := map[];
    }

    /**
     * `validateStep`: replaces the error map with the errors of step `s`
     * (nothing of the old map survives) and reports whether there are none.
     */
    method ValidateStep(s: int) returns (ok: bool)
      modifies this
      ensures errors == StepErrors(s, form)
      ensures ok <==> StepPasses(s, form)
      ensures form == old(form) && step == old(step) && generatedId == old(generatedId)
    {
      errors := StepErrors(s, form);
      ok := |errors| == 0;
    }

    /**
     * The Next button, shown on steps 1 and 2: one step forward when the
     * current step passes, otherwise stay and show its errors.
     */
    method Next()
      requires Valid() && step < 3
      modifies this
      ensures Valid()
      ensures StepPasses(old(step), form) ==> step == old(step) + 1
      ensures !StepPasses(old(step), form) ==> step == old(step)
      ensures errors == StepErrors(old(step), form)
      ensures form == old(form) && generatedId == old(generatedId)
    {
      var ok := ValidateStep(step);
      if ok {
        step := step + 1;
      }
    }

    /**
     * The Back button, enabled on steps 2 and 3: one step back, with the form,
     * the errors and the id untouched.
     */
    method Back()
      requires Valid() && 1 < step < 4
      modifies this
      ensures Valid()
      ensures step == old(step) - 1
      ensures form == old(form) && errors == old(errors) && generatedId == old(generatedId)
    {
      step := step - 1;
    }

    /**
     * A change event on input `f`: the input takes value `v`; an error shown
     * for `f` is blanked (its key stays, with an empty message); nothing else
     * changes.
     */
    method Change(f: Field, v: string)
      modifies this
      ensures form == old(form).With(f, v)
      ensures f in old(errors) && old(errors)[f] != "" ==> errors == old(errors)[f := ""]
      ensures !(f in old(errors) && old(errors)[f] != "") ==> errors == old(errors)
      ensures step == old(step) && generatedId == old(generatedId)
    {
      form := form.With(f, v);
      if f in errors && errors[f] != "" {
        errors := errors[f := ""];
      }
    }

    /**
     * The Submit button, shown on step 3. When the reason is blank nothing is
     * stored and the wizard stays on step 3. Otherwise the new application,
     * with a freshly generated id, goes in front of the stored list and the
     * wizard moves to the Submitted step. `data` is the role and category
     * the dialog was opened with; `iso`, `localeDate` and `draw` stand for
     * the clock and the random draw.
     */
    method Submit(data: Option<ModalData>, iso: string, localeDate: string, draw: nat)
      requires Valid() && step == 3 && draw < 9000
      modifies this, store
      ensures Valid()
      ensures form == old(form) && errors == StepErrors(3, form)
      ensures !StepPasses(3, form) ==>
        step == 3 && generatedId == old(generatedId) && store.apps == old(store.apps)
      ensures StepPasses(3, form) ==>
        && step == 4
        && generatedId == AppId(KindOf(data), iso, draw)
        && store.apps == Some([NewApplication(data, generatedId, form, localeDate)] + old(store.Stored()))
    {
      var ok := ValidateStep(3);
      if !ok {
        return;
      }
      var id := AppId(KindOf(data), iso, draw);
      generatedId := id;
      store.Prepend(NewApplication(data, id, form, localeDate));
      step := 4;
    }

    /**
     * `downloadSummary`: the text saved and the file name it is saved under.
     * The text names the dialog's application id on its own line right after
     * the title block, and the file name is `Wisecrew_App_<id>.txt`, so the
     * id can be read back from either.
     */
    function Download(data: Option<ModalData>, localeDate: string): (r: (string, string))
      reads this
      ensures LineAt(r.0, "Application ID: " + generatedId, |SUMMARY_HEADER|)
      ensures NamesFile(r.1, generatedId)
    {
      (SummaryText(generatedId, localeDate, data, form), DownloadName(generatedId))
    }
  }
}
