/**
 * The older copy of the create form. It validates, packs and shapes errors by the same
 * rules as the current form (`CreateProject`); it differs in not reloading the ledger
 * data after a confirmed creation and in the text of its success toast.
 */
module TempCreateProject {
  import opened Wrappers
  import opened Listing
  import opened CreateProject

  const RedirectToast := "Project created successfully! Redirecting to projects page..."

  class Page {
    var form: Form
    var isLoading: bool
    var error: Option<string>
    var formErrors: map<Field, string>
    /** Every `contract.createProject(fullDescription, parseEther(goal))` call, with the goal as typed. */
    var submissions: seq<(string, string)>
    var toasts: seq<Toast>

    constructor ()
      ensures form == EmptyForm && !isLoading && error.None?
      ensures formErrors == map[] && submissions == [] && toasts == []
    {
      form, isLoading, error := EmptyForm, false, None;
      formErrors, submissions, toasts := map[], [], [];
    }

    /**
     * `createProject`: without an account only the wallet error is set; otherwise the
     * field errors become exactly `FormErrors` of the form; an invalid form stops there;
     * a valid one is packed and sent; success clears the form, failure keeps it and
     * reports the shaped message.
     */
    method CreateProject(account: Option<string>, goalValue: Option<real>, outcome: Outcome)
      modifies this
      ensures !Truthy(account) ==>
        && error == Some(ConnectWallet) && formErrors == old(formErrors) && form == old(form)
        && submissions == old(submissions) && toasts == old(toasts) && isLoading == old(isLoading)
      ensures Truthy(account) && !Acceptable(old(form.title), old(form.description), old(form.goal), goalValue) ==>
        && formErrors == FormErrors(old(form.title), old(form.description), old(form.goal), goalValue)
        && error == old(error) && form == old(form)
        && submissions == old(submissions) && toasts == old(toasts) && isLoading == old(isLoading)
      ensures Truthy(account) && Acceptable(old(form.title), old(form.description), old(form.goal), goalValue) ==>
        && formErrors == FormErrors(old(form.title), old(form.description), old(form.goal), goalValue)
        && formErrors == map[] && !isLoading
        && submissions == old(submissions) +
             (if outcome.FailedUnsent? then [] else [(FullDescription(old(form.title), old(form.description)), old(form.goal))])
        && (outcome.Confirmed? ==>
              error.None? && form == EmptyForm && toasts == old(toasts) + [SuccessToast(RedirectToast)])
        && (!outcome.Confirmed? ==>
              && error == Some(ShapeErrorMessage(outcome.message))
              && toasts == old(toasts) + [ErrorToast(ShapeErrorMessage(outcome.message))]
              && form == old(form))
    {
      if !Truthy(account) {
        error := Some(ConnectWallet);
        return;
      }
      var valid, errors := ValidateForm(form.title, form.description, form.goal, goalValue);
      formErrors := errors;
      if !valid {
        return;
      }
      isLoading := true;
      error := None;
      if !outcome.FailedUnsent? {
        submissions := submissions + [(FullDescription(form.title, form.description), form.goal)];
      }
      if outcome.Confirmed? {
        toasts := toasts + [SuccessToast(RedirectToast)];
        form := EmptyForm;
      } else {
        var shaped := ShapeErrorMessage(outcome.message);
        error := Some(shaped);
        toasts := toasts + [ErrorToast(shaped)];
      }
      isLoading := false;
    }
  }
}
