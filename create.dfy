/**
 * The create-project form: field validation, the packed description it submits, and the
 * shaping of a failed transaction's error message into one line for the user.
 */
module CreateProject {
  import opened Wrappers
  import opened Text
  import opened Codec
  import opened Listing

  datatype Field = TitleField | DescriptionField | GoalField

  const TitleRequired := "Project title is required"
  const TitleTooShort := "Title must be at least 5 characters"
  const DescriptionRequired := "Project description is required"
  const DescriptionTooShort := "Description must be at least 20 characters"
  const GoalRequired := "Funding goal is required"
  const GoalNotPositive := "Goal must be greater than 0"

  const ConnectWallet := "Please connect your wallet to create a project"
  const DefaultFailure := "Failed to create project. Please try again."
  const UnsupportedOperation := "UNSUPPORTED_OPERATION"
  const WrongNetwork := "Contract operation not supported. Please make sure you're connected to the correct network."

  /**
   * The form is acceptable: a title that is not blank and has at least 5 characters, a
   * description that is not blank and has at least 20, and a non-empty goal that does not
   * parse to a number at most zero (`goalValue` is `parseFloat(goal)`, `None` for NaN).
   */
  predicate Acceptable(title: string, description: string, goal: string, goalValue: Option<real>) {
    && !IsBlank(title) && |title| >= 5
    && !IsBlank(description) && |description| >= 20
    && goal != [] && (goalValue.None? || goalValue.value > 0.0)
  }

  /**
   * The messages `validateForm` records: each rule that fails puts one message under its
   * field, the "required" message taking precedence over the length or amount message.
   */
  function FormErrors(title: string, description: string, goal: string, goalValue: Option<real>): (errors: map<Field, string>)
    ensures TitleField in errors <==> IsBlank(title) || |title| < 5
    ensures TitleField in errors ==> errors[TitleField] == if IsBlank(title) then TitleRequired else TitleTooShort
    ensures DescriptionField in errors <==> IsBlank(description) || |description| < 20
    ensures DescriptionField in errors ==>
      errors[DescriptionField] == if IsBlank(description) then DescriptionRequired else DescriptionTooShort
    ensures GoalField in errors <==> goal == [] || (goalValue.Some? && goalValue.value <= 0.0)
    ensures GoalField in errors ==> errors[GoalField] == if goal == [] then GoalRequired else GoalNotPositive
    ensures errors == map[] <==> Acceptable(title, description, goal, goalValue)
  {
    WithGoalErrors(WithDescriptionErrors(TitleErrors(title), description), goal, goalValue)
  }

  /** The title's message, if any. */
  function TitleErrors(title: string): map<Field, string> {
    if IsBlank(title) then map[TitleField := TitleRequired]
    else if |title| < 5 then map[TitleField := TitleTooShort]
    else map[]
  }

  /** `errors` with the description's message, if any, added. */
  function WithDescriptionErrors(errors: map<Field, string>, description: string): map<Field, string> {
    if IsBlank(description) then errors[DescriptionField := DescriptionRequired]
    else if |description| < 20 then errors[DescriptionField := DescriptionTooShort]
    else errors
  }

  /** `errors` with the goal's message, if any, added. */
  function WithGoalErrors(errors: map<Field, string>, goal: string, goalValue: Option<real>): map<Field, string> {
    if goal == [] then errors[GoalField := GoalRequired]
    else if goalValue.Some? && goalValue.value <= 0.0 then errors[GoalField := GoalNotPositive]
    else errors
  }

  /**
   * `validateForm`: records exactly the messages of `FormErrors`; the form is valid
   * exactly when no message was recorded (`Object.keys(errors).length === 0`).
   */
  method ValidateForm(title: string, description: string, goal: string, goalValue: Option<real>)
    returns (valid: bool, errors: map<Field, string>)
    ensures errors == FormErrors(title, description, goal, goalValue)
    ensures valid <==> errors == map[]
    ensures valid <==> Acceptable(title, description, goal, goalValue)
  {
    errors := map[];
    if TrimsToEmpty(title) {
      errors := errors[TitleField := TitleRequired];
    } else if |title| < 5 {
      errors := errors[TitleField := TitleTooShort];
    }
    assert errors == TitleErrors(title);
    ghost var titleErrors := errors;
    if TrimsToEmpty(description) {
      errors := errors[DescriptionField := DescriptionRequired];
    } else if |description| < 20 {
      errors := errors[DescriptionField := DescriptionTooShort];
    }
    assert errors == WithDescriptionErrors(titleErrors, description);
    ghost var descriptionErrors := errors;
    if goal == [] {
      errors := errors[GoalField := GoalRequired];
    } else if goalValue.Some? && goalValue.value <= 0.0 {
      errors := errors[GoalField := GoalNotPositive];
    }
    assert errors == WithGoalErrors(descriptionErrors, goal, goalValue);
    valid := errors == map[];
  }

  /**
   * Validation looks at the goal text only for emptiness and at its parse only for
   * being at most zero: a non-empty goal that is not a number passes (NaN is not `<= 0`).
   */
  lemma NonNumericGoalPasses(title: string, description: string, goal: string)
    requires !IsBlank(title) && |title| >= 5 && !IsBlank(description) && |description| >= 20
    requires goal != []
    ensures Acceptable(title, description, goal, None)
  {
  }

  /** `${title}\n\n${description}`: what the form stores as the project's description. */
  function FullDescription(title: string, description: string): (packed: string)
    ensures |packed| == |title| + 2 + |description|
    ensures Split(packed, '\n') == Split(title, '\n') + [[]] + Split(description, '\n')
  {
    Encode(title, description)
  }

  /**
   * A valid single-line title always comes back from the stored text: a title that
   * passes validation is not blank, so decoding the submission yields it again.
   */
  lemma SubmittedTitleDecodes(title: string, description: string, goal: string, goalValue: Option<real>)
    requires Acceptable(title, description, goal, goalValue) && '\n' !in title
    ensures DecodePacked(FullDescription(title, description)).Some?
    ensures DecodePacked(FullDescription(title, description)).value.0 == title
    ensures DecodePacked(FullDescription(title, description)).value.1 == Join(NonBlankLines(description), '\n')
  {
    DecodeEncode(title, description);
  }

  /**
   * The error reducer: the fixed network message when the error's message mentions
   * UNSUPPORTED_OPERATION, otherwise the message's text before its first "(", trimmed,
   * and the default text when there is no message.
   */
  function ShapeErrorMessage(message: Option<string>): (r: string)
    ensures !Truthy(message) ==> r == DefaultFailure
    ensures Truthy(message) && Includes(message.value, UnsupportedOperation) ==> r == WrongNetwork
  {
    if message.Some? && message.value != [] && Includes(message.value, UnsupportedOperation) then WrongNetwork
    else if message.Some? && message.value != [] then Trim(Split(message.value, '(')[0])
    else DefaultFailure
  }

  /**
   * Any other message is cut at its first "(": the result is a piece of the message
   * that lies before every "(", has no "(" itself, neither starts nor ends with
   * whitespace, and is empty exactly when nothing but whitespace precedes the "(".
   */
  lemma ShapedMessageIsTrimmedHead(message: string)
    requires message != [] && !Includes(message, UnsupportedOperation)
    ensures var r := ShapeErrorMessage(Some(message));
      var head := Split(message, '(')[0];
      && StartsWith(message, head) && '(' !in head
      && (|head| < |message| ==> message[|head|] == '(')
      && r == Trim(head)
      && '(' !in r
      && (r == [] <==> IsBlank(head))
      && (r != [] ==> !IsSpace(r[0]) && !IsSpace(r[|r| - 1]))
  {
    var head := Split(message, '(')[0];
    SplitHeadIsPrefix(message, '(');
    SplitPartsFree(message, '(');
    assert '(' !in head;
    TrimKeepsAbsent(head, '(');
  }

  /** What the submission's promise came to: confirmed, or thrown before or after the call reached the contract. */
  datatype Outcome = Confirmed | FailedUnsent(message: Option<string>) | FailedSent(message: Option<string>)

  /** A toast raised through the notification context. */
  datatype Toast = SuccessToast(text: string) | ErrorToast(text: string)

  const CreatedToast := "Project created successfully! Redirecting to dashboard..."

  /** The three controlled inputs of the form. */
  datatype Form = Form(title: string, description: string, goal: string)

  const EmptyForm := Form([], [], [])

  class Page {
    var form: Form
    var isLoading: bool
    var error: Option<string>
    var formErrors: map<Field, string>
    /** Every `contract.createProject(fullDescription, parseEther(goal))` call, with the goal as typed. */
    var submissions: seq<(string, string)>
    /** How many times `loadBlockchainData` was awaited. */
    var reloads: nat
    var toasts: seq<Toast>

    constructor ()
      ensures form == EmptyForm && !isLoading && error.None?
      ensures formErrors == map[] && submissions == [] && reloads == 0 && toasts == []
    {
      form, isLoading, error := EmptyForm, false, None;
      formErrors, submissions, reloads, toasts := map[], [], 0, [];
    }

    /**
     * `createProject`: without an account only the wallet error is set; otherwise the
     * field errors become exactly `FormErrors` of the form, and only an acceptable form
     * (no errors) is submitted.
     */
    method CreateProject(account: Option<string>, goalValue: Option<real>, outcome: Outcome)
      modifies this
      ensures !Truthy(account) ==>
        && error == Some(ConnectWallet) && formErrors == old(formErrors) && form == old(form)
        && submissions == old(submissions) && reloads == old(reloads) && toasts == old(toasts)
        && isLoading == old(isLoading)
      ensures Truthy(account) && !Acceptable(old(form.title), old(form.description), old(form.goal), goalValue) ==>
        && formErrors == FormErrors(old(form.title), old(form.description), old(form.goal), goalValue)
        && error == old(error) && form == old(form)
        && submissions == old(submissions) && reloads == old(reloads) && toasts == old(toasts)
        && isLoading == old(isLoading)
      ensures Truthy(account) && Acceptable(old(form.title), old(form.description), old(form.goal), goalValue) ==>
        && formErrors == FormErrors(old(form.title), old(form.description), old(form.goal), goalValue)
        && formErrors == map[] && Submitted(old(form), old(submissions), old(reloads), old(toasts), outcome)
    {
      if !Truthy(account) {
        error := Some(ConnectWallet);
        return;
      }
      var valid, errors := ValidateForm(form.title, form.description, form.goal, goalValue);
      formErrors := errors;
      if valid {
        Submit(outcome);
      }
    }

    /**
     * The state after the `try` block ran on a valid form: the packed description was
     * sent unless the failure came first; success reloads the data, raises the success
     * toast and clears the form, failure keeps the form and reports the shaped message.
     */
    ghost predicate Submitted(form0: Form, submissions0: seq<(string, string)>, reloads0: nat, toasts0: seq<Toast>, outcome: Outcome)
      reads this
    {
      && !isLoading
      && submissions == submissions0 +
           (if outcome.FailedUnsent? then [] else [(FullDescription(form0.title, form0.description), form0.goal)])
      && (outcome.Confirmed? ==>
            error.None? && form == EmptyForm && reloads == reloads0 + 1 && toasts == toasts0 + [SuccessToast(CreatedToast)])
      && (!outcome.Confirmed? ==>
            && error == Some(ShapeErrorMessage(outcome.message))
            && toasts == toasts0 + [ErrorToast(ShapeErrorMessage(outcome.message))]
            && form == form0 && reloads == reloads0)
    }

    method Submit(outcome: Outcome)
      modifies this
      ensures formErrors == old(formErrors)
      ensures Submitted(old(form), old(submissions), old(reloads), old(toasts), outcome)
    {
      isLoading := true;
      error := None;
      if !outcome.FailedUnsent? {
        submissions := submissions + [(FullDescription(form.title, form.description), form.goal)];
      }
      if outcome.Confirmed? {
        reloads := reloads + 1;
        toasts := toasts + [SuccessToast(CreatedToast)];
        form := EmptyForm;
      } else {
        var shaped := ShapeErrorMessage(outcome.message);
        error := Some(shaped);
        toasts := toasts + [ErrorToast(shaped)];
      }
      isLoading := false;
    }
  }
}
