/** The public consulting form: its field values, whether a submission is in flight or
    has succeeded, and the error shown. The POST's answer is a parameter. */
module Form {
  import opened Values
  import opened Email
  import opened Validation

  /** The form's fields and their initial values; a successful submission resets the
      form to these. */
  const InitialFormData: Fields := map[
    "name" := "", "email" := "", "company" := "", "phone" := "",
    "projectType" := "General Consulting", "budget" := "Not specified", "timeline" := "Flexible",
    "description" := "", "preferredDate" := "", "preferredTime" := "",
    "communicationPreference" := "email"]

  const SubmitFailedMessage := "Failed to submit consulting request"
  const NetworkMessage := "Network error. Please try again later."

  /** What the POST answered: `success`, an answer without it (carrying its `error`
      member, "" when absent), or a network or JSON error. */
  datatype SubmitAnswer = Accepted | Rejected(error: string) | NetworkFailure

  class FormState {
    var formData: Fields
    var isSubmitting: bool
    var isSubmitted: bool
    var error: string

    constructor ()
      ensures formData == InitialFormData && !isSubmitting && !isSubmitted && error == ""
    {
      formData := InitialFormData;
      isSubmitting := false;
      isSubmitted := false;
      error := "";
    }

    /** `handleInputChange`: the named field takes the new value. */
    method HandleInputChange(name: string, value: string)
      modifies this
      ensures formData == old(formData)[name := value]
      ensures isSubmitting == old(isSubmitting) && isSubmitted == old(isSubmitted) && error == old(error)
    {
      formData := formData[name := value];
    }

    /** The start of `handleSubmit`, before the POST is awaited. */
    method SubmitStart()
      modifies this
      ensures isSubmitting && error == ""
      ensures formData == old(formData) && isSubmitted == old(isSubmitted)
    {
      isSubmitting := true;
      error := "";
    }

    /** The rest of `handleSubmit`, once the POST has answered. */
    method SubmitSettle(answer: SubmitAnswer)
      modifies this
      ensures !isSubmitting
      ensures answer.Accepted? ==> isSubmitted && formData == InitialFormData && error == old(error)
      ensures answer.Rejected? ==>
        error == OrElse(answer.error, SubmitFailedMessage) && formData == old(formData) && isSubmitted == old(isSubmitted)
      ensures answer.NetworkFailure? ==>
        error == NetworkMessage && formData == old(formData) && isSubmitted == old(isSubmitted)
    {
      match answer {
        case Accepted =>
          isSubmitted := true;
          formData := InitialFormData;
        case Rejected(e) =>
          error := OrElse(e, SubmitFailedMessage);
        case NetworkFailure =>
          error := NetworkMessage;
      }
      isSubmitting := false;
    }

    /** `handleSubmit` from start to finish. */
    method HandleSubmit(answer: SubmitAnswer)
      modifies this
      ensures !isSubmitting
      ensures answer.Accepted? ==> isSubmitted && formData == InitialFormData && error == ""
      ensures answer.Rejected? ==>
        error == OrElse(answer.error, SubmitFailedMessage) && formData == old(formData) && isSubmitted == old(isSubmitted)
      ensures answer.NetworkFailure? ==>
        error == NetworkMessage && formData == old(formData) && isSubmitted == old(isSubmitted)
    {
      SubmitStart();
      SubmitSettle(answer);
    }

    /** "Submit Another Request": only leaves the success screen. */
    method SubmitAnother()
      modifies this
      ensures !isSubmitted
      ensures formData == old(formData) && isSubmitting == old(isSubmitting) && error == old(error)
    {
      isSubmitted := false;
    }
  }

  /** The initial (and reset) form: the engagement fields hold the server's defaults,
      the preference is 'email', every other field is empty. */
  lemma InitialFormDefaults()
    ensures InitialFormData.Keys == {"name", "email", "company", "phone", "projectType", "budget", "timeline",
                                     "description", "preferredDate", "preferredTime", "communicationPreference"}
    ensures forall k :: k in InitialFormData && k !in {"projectType", "budget", "timeline", "communicationPreference"} ==>
      InitialFormData[k] == ""
    ensures InitialFormData["projectType"] == "General Consulting" && InitialFormData["budget"] == "Not specified"
    ensures InitialFormData["timeline"] == "Flexible" && InitialFormData["communicationPreference"] == "email"
  {
  }

  /** A form sent as it starts (or as it is reset) is refused for its missing fields. */
  lemma UntouchedFormRefused()
    ensures CheckCreate(InitialFormData) == Some(MissingFields)
  {
  }

  /** Filling in the three required fields with a non-empty name and description and an
      accepted email is enough for the server's check. */
  lemma FilledFormAccepted(name: string, email: string, description: string)
    requires name != "" && description != "" && EmailShape(email)
    ensures CheckCreate(InitialFormData["name" := name]["email" := email]["description" := description]).None?
  {
    var body := InitialFormData["name" := name]["email" := email]["description" := description];
    assert Truthy(body, "name") && Truthy(body, "description");
    assert body["email"] == email;
    assert email != "" by { assert |email| > 0; }
  }
}
