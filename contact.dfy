/**
 * The contact form's submission state machine.
 *
 * A submission resets the notices and marks the form busy, hands the
 * fields to the email relay, and when the relay answers either shows the
 * success notice and clears the fields or shows the fixed error message;
 * in both cases the form stops being busy. The relay itself is replaced by
 * its outcome, supplied by the caller.
 */
module Contact {

  /** The four inputs of the form, as the browser holds them. */
  datatype Fields = Fields(fromName: string, fromEmail: string, subject: string, message: string)

  /** What resetting the form restores: none of the inputs has a default value. */
  const EmptyFields: Fields := Fields("", "", "", "")

  /** How the relay's promise settles. */
  datatype RelayOutcome = Delivered | Rejected

  /** The only error text the form ever shows. */
  const SendFailedMessage: string := "There was an error sending the email. Please try again."

  datatype FormState = FormState(isSent: bool, errorMessage: string, isSubmitting: bool, fields: Fields)

  /** The initial state: not sent, no error, not busy, empty inputs. */
  const InitialForm: FormState := FormState(false, "", false, EmptyFields)

  /** What holds from submitting until the relay answers. */
  function SubmitStarted(s: FormState): FormState
  {
    s.(isSubmitting := true, isSent := false, errorMessage := "")
  }

  /** What the relay's answer does: a success or a failure, then no longer busy. */
  function SubmitResolved(s: FormState, outcome: RelayOutcome): FormState
  {
    match outcome
    case Delivered => s.(isSent := true, fields := EmptyFields, isSubmitting := false)
    case Rejected => s.(errorMessage := SendFailedMessage, isSubmitting := false)
  }

  /** A whole submission, from start to finish. */
  function Submitted(s: FormState, outcome: RelayOutcome): FormState
  {
    SubmitResolved(SubmitStarted(s), outcome)
  }

  /** The submit button is disabled while the form is busy. */
  predicate ButtonDisabled(s: FormState)
  {
    s.isSubmitting
  }

  /** The submit button's caption. */
  function ButtonLabel(s: FormState): string
  {
    if s.isSubmitting then "Sending..." else "Send Message"
  }

  /** The success notice is rendered. */
  predicate SuccessShown(s: FormState)
  {
    s.isSent
  }

  /** The error notice is rendered: the error message is non-empty. */
  predicate ErrorShown(s: FormState)
  {
    s.errorMessage != ""
  }

  /** While the relay is pending, the form is busy and shows no notice. */
  lemma PendingState(s: FormState)
    ensures SubmitStarted(s).isSubmitting && !SubmitStarted(s).isSent
    ensures SubmitStarted(s).errorMessage == ""
    ensures SubmitStarted(s).fields == s.fields
    ensures ButtonDisabled(SubmitStarted(s)) && ButtonLabel(SubmitStarted(s)) == "Sending..."
  {
  }

  /**
   * Whatever the relay answers, the form ends not busy and shows exactly
   * one of the two notices; success clears the inputs, failure keeps them
   * and shows the fixed message.
   */
  lemma SubmissionOutcome(s: FormState, outcome: RelayOutcome)
    ensures !Submitted(s, outcome).isSubmitting && !ButtonDisabled(Submitted(s, outcome))
    ensures SuccessShown(Submitted(s, outcome)) != ErrorShown(Submitted(s, outcome))
    ensures outcome == Delivered ==>
      Submitted(s, outcome).isSent && Submitted(s, outcome).fields == EmptyFields &&
      Submitted(s, outcome).errorMessage == ""
    ensures outcome == Rejected ==>
      !Submitted(s, outcome).isSent && Submitted(s, outcome).fields == s.fields &&
      Submitted(s, outcome).errorMessage == SendFailedMessage
  {
  }

  /** The button is disabled exactly while it reads "Sending...". */
  lemma ButtonReflectsSubmitting(s: FormState)
    ensures ButtonDisabled(s) <==> s.isSubmitting
    ensures ButtonLabel(s) == (if s.isSubmitting then "Sending..." else "Send Message")
    ensures ButtonDisabled(s) <==> ButtonLabel(s) == "Sending..."
  {
  }

  // ---------------------------------------------------------------------
  // Event sequences
  // ---------------------------------------------------------------------

  /**
   * What can happen to the form: the visitor edits the inputs, presses
   * the submit button, or the pending relay call settles.
   */
  datatype FormEvent =
    | Edit(fields: Fields)
    | PressSubmit
    | RelaySettled(outcome: RelayOutcome)

  /**
   * A disabled button submits nothing, and only a pending call can
   * settle.
   */
  function Step(s: FormState, e: FormEvent): FormState
  {
    match e
    case Edit(f) => s.(fields := f)
    case PressSubmit => if ButtonDisabled(s) then s else SubmitStarted(s)
    case RelaySettled(o) => if s.isSubmitting then SubmitResolved(s, o) else s
  }

  function Run(s: FormState, events: seq<FormEvent>): FormState
    decreases |events|
  {
    if events == [] then s else Run(Step(s, events[0]), events[1..])
  }

  /**
   * What every reachable state satisfies: a pending submission shows no
   * notice, the two notices never show together, and the only error text
   * is the fixed one.
   */
  predicate Consistent(s: FormState)
  {
    (s.isSubmitting ==> !s.isSent && s.errorMessage == "") &&
    !(SuccessShown(s) && ErrorShown(s)) &&
    (s.errorMessage == "" || s.errorMessage == SendFailedMessage)
  }

  lemma StepKeepsConsistent(s: FormState, e: FormEvent)
    requires Consistent(s)
    ensures Consistent(Step(s, e))
  {
  }

  /** From page load, whatever the visitor and the relay do, the form stays consistent. */
  lemma {:induction false} AlwaysConsistent(s: FormState, events: seq<FormEvent>)
    requires Consistent(s)
    ensures Consistent(Run(s, events))
    decreases |events|
  {
    if events != [] {
      StepKeepsConsistent(s, events[0]);
      AlwaysConsistent(Step(s, events[0]), events[1..]);
    }
  }

  lemma InitialConsistent()
    ensures Consistent(InitialForm)
    ensures !InitialForm.isSent && InitialForm.errorMessage == "" && !InitialForm.isSubmitting
  {
  }

  // ---------------------------------------------------------------------
  // The component
  // ---------------------------------------------------------------------

  /** The form's state, together with the contents of its inputs. */
  class ContactForm {
    var isSent: bool
    var errorMessage: string
    var isSubmitting: bool
    var fields: Fields

    function State(): FormState
      reads this
    {
      FormState(isSent, errorMessage, isSubmitting, fields)
    }

    constructor ()
      ensures State() == InitialForm
    {
      isSent, errorMessage, isSubmitting, fields := false, "", false, EmptyFields;
    }

    /** The visitor types into the uncontrolled inputs. */
    method Edit(f: Fields)
      modifies this
      ensures State() == old(State()).(fields := f)
    {
      fields := f;
    }

    /** The start of a submission, before the relay answers. */
    method BeginSubmit()
      modifies this
      ensures State() == SubmitStarted(old(State()))
    {
      isSubmitting := true;
      isSent := false;
      errorMessage := "";
    }

    /** The end of a submission, once the relay answers with `outcome`. */
    method FinishSubmit(outcome: RelayOutcome)
      modifies this
      ensures State() == SubmitResolved(old(State()), outcome)
    {
      match outcome {
        case Delivered =>
          isSent := true;
          fields := EmptyFields;
        case Rejected =>
          errorMessage := SendFailedMessage;
      }
      isSubmitting := false;
    }

    /** A whole submission. */
    method SendEmail(outcome: RelayOutcome)
      modifies this
      ensures State() == Submitted(old(State()), outcome)
      ensures !isSubmitting && isSent != (errorMessage != "")
    {
      BeginSubmit();
      FinishSubmit(outcome);
    }
  }
}
