/** The three-step onboarding wizard: a form edited field by field, a step
    counter moved by Continue and Back, and a submission that sends the form
    to the onboarding endpoint in three groups and redirects to the timeline
    when it succeeds. */
module Onboarding {
  import opened Options

  /** The wizard's step: 1, 2 or 3. */
  type Step = s: int | 1 <= s <= 3 witness 1

  /** The names of the form's fields (`keyof FormData`). */
  datatype Field = Name | DateOfBirth | County | DiagnosisStatus | DiagnosisDate | RcStatus | SchoolStatus | InsuranceType

  /** The form's values; the enumerated fields are carried as the strings the
      selects and buttons produce. */
  datatype Form = Form(
    name: string,
    dateOfBirth: string,
    county: string,
    diagnosisStatus: string,
    diagnosisDate: string,
    rcStatus: string,
    schoolStatus: string,
    insuranceType: string)

  /** The form the wizard opens with. */
  const InitialForm := Form("", "", "Sacramento", "diagnosed", "", "not_connected", "not_school_age", "private_fully_insured")

  /** The fixed message shown after a failed submission. */
  const SubmitErrorMessage := "Something went wrong. Please try again."

  /** Where a successful submission leads. */
  const TimelinePath := "/timeline"

  function Get(f: Form, field: Field): string {
    match field
    case Name => f.name
    case DateOfBirth => f.dateOfBirth
    case County => f.county
    case DiagnosisStatus => f.diagnosisStatus
    case DiagnosisDate => f.diagnosisDate
    case RcStatus => f.rcStatus
    case SchoolStatus => f.schoolStatus
    case InsuranceType => f.insuranceType
  }

  /** `{ ...prev, [field]: value }`: exactly the named field changes. */
  function WithField(f: Form, field: Field, value: string): (r: Form)
    ensures forall g :: Get(r, g) == if g == field then value else Get(f, g)
  {
    match field
    case Name => f.(name := value)
    case DateOfBirth => f.(dateOfBirth := value)
    case County => f.(county := value)
    case DiagnosisStatus => f.(diagnosisStatus := value)
    case DiagnosisDate => f.(diagnosisDate := value)
    case RcStatus => f.(rcStatus := value)
    case SchoolStatus => f.(schoolStatus := value)
    case InsuranceType => f.(insuranceType := value)
  }

  /** The three argument groups of `completeOnboarding`. */
  datatype Child = Child(name: string, dateOfBirth: string, county: string)
  datatype Diagnosis = Diagnosis(status: string, date: Option<string>)
  datatype Services = Services(rcStatus: string, schoolStatus: string, insuranceType: string)
  datatype Payload = Payload(child: Child, diagnosis: Diagnosis, services: Services)

  /** Reads the form back out of a payload, an absent diagnosis date as "". */
  function FormOf(p: Payload): Form {
    Form(p.child.name, p.child.dateOfBirth, p.child.county,
         p.diagnosis.status, p.diagnosis.date.GetOr(""),
         p.services.rcStatus, p.services.schoolStatus, p.services.insuranceType)
  }

  /** The submission payload: the form split into its three groups, an empty
      diagnosis date sent as absent. Nothing of the form is lost. */
  function PayloadOf(f: Form): (p: Payload)
    ensures FormOf(p) == f
    ensures p.diagnosis.date == None <==> f.diagnosisDate == ""
  {
    Payload(
      Child(f.name, f.dateOfBirth, f.county),
      Diagnosis(f.diagnosisStatus, if f.diagnosisDate == "" then None else Some(f.diagnosisDate)),
      Services(f.rcStatus, f.schoolStatus, f.insuranceType))
  }

  /** The Continue button is disabled while loading, and on step 1 until both
      the name and the date of birth are filled in. */
  function ContinueDisabled(step: Step, loading: bool, f: Form): (disabled: bool)
    ensures loading ==> disabled
    ensures step != 1 ==> (disabled <==> loading)
    ensures f.name != "" && f.dateOfBirth != "" ==> (disabled <==> loading)
    ensures step == 1 && (f.name == "" || f.dateOfBirth == "") ==> disabled
  {
    loading || (step == 1 && (f.name == "" || f.dateOfBirth == ""))
  }

  /** The Continue button's text. */
  function ButtonLabel(step: Step, loading: bool): (r: string)
    ensures r == "Loading..." <==> loading
    ensures r == "See My Timeline" <==> !loading && step == 3
    ensures r == "Continue" <==> !loading && step != 3
  {
    if loading then "Loading..." else if step == 3 then "See My Timeline" else "Continue"
  }

  /** How the onboarding call ends. */
  datatype SubmitOutcome = Completed | Failed

  class Wizard {
    var step: Step
    var form: Form
    var loading: bool
    var error: Option<string>
    /** Every `completeOnboarding` call, oldest first. */
    var submissions: seq<Payload>
    /** The route pushed after a successful submission. */
    var redirect: Option<string>

    /** A submission is in flight only after one was sent. */
    ghost predicate Valid()
      reads this
    {
      loading ==> submissions != []
    }

    constructor ()
      ensures Valid()
      ensures step == 1 && form == InitialForm && !loading && error == None
      ensures submissions == [] && redirect == None
    {
      step := 1;
      form := InitialForm;
      loading := false;
      error := None;
      submissions := [];
      redirect := None;
    }

    /** `updateForm`: set one field and clear the error. */
    method UpdateForm(field: Field, value: string)
      requires Valid()
      modifies this
      ensures Valid()
      ensures form == WithField(old(form), field, value)
      ensures Get(form, field) == value
      ensures forall g :: g != field ==> Get(form, g) == Get(old(form), g)
      ensures error == None
      ensures step == old(step) && loading == old(loading)
      ensures submissions == old(submissions) && redirect == old(redirect)
    {
      form := WithField(form, field, value);
      error := None;
    }

    /** `handleSubmit` up to the call: loading starts, the error clears, and
        the payload is sent. */
    method Submit()
      requires Valid()
      modifies this
      ensures Valid()
      ensures loading && error == None
      ensures submissions == old(submissions) + [PayloadOf(old(form))]
      ensures step == old(step) && form == old(form) && redirect == old(redirect)
    {
      loading := true;
      error := None;
      submissions := submissions + [PayloadOf(form)];
    }

    /** `handleNext`, which only the enabled Continue button calls: steps 1
        and 2 advance, step 3 submits and stays. */
    method Next()
      requires Valid() && !ContinueDisabled(step, loading, form)
      modifies this
      ensures Valid()
      ensures old(step) < 3 ==>
        step == old(step) + 1 && submissions == old(submissions) && loading == old(loading) && error == old(error)
      ensures old(step) == 3 ==>
        step == 3 && loading && error == None && submissions == old(submissions) + [PayloadOf(old(form))]
      ensures form == old(form) && redirect == old(redirect)
    {
      if step < 3 {
        step := step + 1;
      } else {
        Submit();
      }
    }

    /** `handleBack`: one step back, except on step 1. */
    method Back()
      requires Valid()
      modifies this
      ensures Valid()
      ensures step == if old(step) > 1 then old(step) - 1 else 1
      ensures form == old(form) && loading == old(loading) && error == old(error)
      ensures submissions == old(submissions) && redirect == old(redirect)
    {
      if step > 1 {
        step := step - 1;
      }
    }

    /** The end of `handleSubmit`: success redirects to the timeline, failure
        shows the fixed message; loading stops either way. */
    method SubmitFinished(outcome: SubmitOutcome)
      requires Valid() && loading
      modifies this
      ensures Valid()
      ensures !loading
      // the answer belongs to a submission that was actually sent
      ensures submissions != []
      ensures outcome.Completed? ==> redirect == Some(TimelinePath) && error == old(error)
      ensures outcome.Failed? ==> error == Some(SubmitErrorMessage) && redirect == old(redirect)
      ensures step == old(step) && form == old(form) && submissions == old(submissions)
    {
      if outcome.Completed? {
        redirect := Some(TimelinePath);
      } else {
        error := Some(SubmitErrorMessage);
      }
      loading := false;
    }
  }
}
