/**
 * The feedback form of src/components/FeedbackForm.tsx: its record of field
 * values, the blank-field guard, the row it inserts, and the state changes of
 * its handlers. The form calls none of the sanitiser, validators or error
 * classifier; nothing here does either.
 */
module FeedbackForm {
  import opened Wrappers
  import opened JsText

  datatype FeedbackFormData = FeedbackFormData(
    name: string,
    phone: string,
    email: string,
    overallRating: int,
    enjoyedMost: string,
    foodQuality: int,
    serviceQuality: int,
    improvements: string,
    additionalComments: string)

  /** The initial (and reset) record: empty text, zero ratings. */
  const InitialFormData := FeedbackFormData("", "", "", 0, "", 0, 0, "", "")

  /** The row inserted into the `feedbacks` table, with the table's column names. */
  datatype FeedbackRow = FeedbackRow(
    name: string,
    email: string,
    phone: string,
    overall_rating: int,
    enjoyed_most: string,
    food_quality: int,
    service_quality: int,
    improvements: string,
    additional_comments: string)

  const ThanksAlert := "Thank you for your feedback!"
  const FailureAlert := "There was an error submitting your feedback. Please try again."

  /** The guard at the top of `handleSubmit`: neither name nor email is empty after trimming. */
  predicate CanSubmit(d: FeedbackFormData) {
    Trim(d.name) != "" && Trim(d.email) != ""
  }

  /** The guard refuses exactly the records whose name or email is all whitespace. */
  lemma CanSubmitIff(d: FeedbackFormData)
    ensures CanSubmit(d) <==> !IsBlank(d.name) && !IsBlank(d.email)
  {
    TrimEmptyIffBlank(d.name);
    TrimEmptyIffBlank(d.email);
  }

  /** The insert payload: every field copied as it is, without trimming, sanitising or clamping. */
  function ToRow(d: FeedbackFormData): FeedbackRow {
    FeedbackRow(d.name, d.email, d.phone, d.overallRating, d.enjoyedMost,
                d.foodQuality, d.serviceQuality, d.improvements, d.additionalComments)
  }

  /** Reads a row back into the form's record. */
  function FromRow(r: FeedbackRow): FeedbackFormData {
    FeedbackFormData(r.name, r.phone, r.email, r.overall_rating, r.enjoyed_most,
                     r.food_quality, r.service_quality, r.improvements, r.additional_comments)
  }

  /** The row loses nothing and adds nothing: the mapping is a bijection. */
  lemma RowRoundTrip(d: FeedbackFormData, r: FeedbackRow)
    ensures FromRow(ToRow(d)) == d
    ensures ToRow(FromRow(r)) == r
  {
  }

  /** The text inputs and text areas that report changes through `handleChange`. */
  datatype TextField = Name | Phone | Email | EnjoyedMost | Improvements | AdditionalComments

  function TextOf(d: FeedbackFormData, f: TextField): string {
    match f
    case Name => d.name
    case Phone => d.phone
    case Email => d.email
    case EnjoyedMost => d.enjoyedMost
    case Improvements => d.improvements
    case AdditionalComments => d.additionalComments
  }

  /** `{ ...prev, [name]: value }`. */
  function WithText(d: FeedbackFormData, f: TextField, value: string): FeedbackFormData {
    match f
    case Name => d.(name := value)
    case Phone => d.(phone := value)
    case Email => d.(email := value)
    case EnjoyedMost => d.(enjoyedMost := value)
    case Improvements => d.(improvements := value)
    case AdditionalComments => d.(additionalComments := value)
  }

  /** A change event sets the named field and leaves every other field, ratings included, alone. */
  lemma WithTextChangesOnlyThatField(d: FeedbackFormData, f: TextField, value: string, g: TextField)
    ensures TextOf(WithText(d, f, value), g) == if g == f then value else TextOf(d, g)
    ensures var e := WithText(d, f, value);
      e.overallRating == d.overallRating && e.foodQuality == d.foodQuality && e.serviceQuality == d.serviceQuality
  {
  }

  /** Setting a field to the value it already has changes nothing. */
  lemma WithTextOwnValue(d: FeedbackFormData, f: TextField)
    ensures WithText(d, f, TextOf(d, f)) == d
  {
  }

  class Form {
    var formData: FeedbackFormData
    var isSubmitting: bool
    var navigatedTo: Option<string>
    var lastAlert: Option<string>

    constructor ()
      ensures formData == InitialFormData && !isSubmitting && navigatedTo == None && lastAlert == None
    {
      formData := InitialFormData;
      isSubmitting := false;
      navigatedTo := None;
      lastAlert := None;
    }

    /** The submit button's `disabled`. */
    function SubmitDisabled(): bool
      reads this
    {
      isSubmitting
    }

    /**
     * `handleSubmit` up to the insert call: a blank name or email returns at once;
     * otherwise `isSubmitting` is set and the row to insert is returned.
     */
    method Submit() returns (row: Option<FeedbackRow>)
      modifies this
      ensures formData == old(formData) && navigatedTo == old(navigatedTo) && lastAlert == old(lastAlert)
      ensures !CanSubmit(formData) ==> row == None && isSubmitting == old(isSubmitting)
      ensures CanSubmit(formData) ==> row == Some(ToRow(formData)) && isSubmitting
    {
      var d := formData;
      if !CanSubmit(d) {
        return None;
      }
      isSubmitting := true;
      row := Some(ToRow(d));
    }

    /**
     * The continuation once the insert settles: on success thank, reset the form and
     * go to `/`; on failure report and keep the form as it was. Either way
     * `isSubmitting` ends false.
     */
    method InsertSettled(ok: bool)
      modifies this
      ensures !isSubmitting
      ensures ok ==> formData == InitialFormData && navigatedTo == Some("/") && lastAlert == Some(ThanksAlert)
      ensures !ok ==> formData == old(formData) && navigatedTo == old(navigatedTo) && lastAlert == Some(FailureAlert)
    {
      if ok {
        lastAlert := Some(ThanksAlert);
        formData := InitialFormData;
        navigatedTo := Some("/");
      } else {
        lastAlert := Some(FailureAlert);
      }
      isSubmitting := false;
    }

    /** `handleChange` for one text field. */
    method HandleChange(f: TextField, value: string)
      modifies this`formData
      ensures formData == WithText(old(formData), f, value)
    {
      formData := WithText(formData, f, value);
    }

    /** The overall-experience stars' callback. */
    method SetOverallRating(rating: int)
      modifies this`formData
      ensures formData == old(formData).(overallRating := rating)
    {
      formData := formData.(overallRating := rating);
    }

    /** The food-quality stars' callback. */
    method SetFoodQuality(rating: int)
      modifies this`formData
      ensures formData == old(formData).(foodQuality := rating)
    {
      formData := formData.(foodQuality := rating);
    }

    /** The service-quality stars' callback. */
    method SetServiceQuality(rating: int)
      modifies this`formData
      ensures formData == old(formData).(serviceQuality := rating)
    {
      formData := formData.(serviceQuality := rating);
    }
  }
}
