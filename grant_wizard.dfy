/**
 * The council's grant-creation wizard (`GrantCreationWizard.jsx`): a
 * four-step form (basic details, funding and dates, application form,
 * review and publish) whose step moves forward only when the current step
 * validates, and whose list fields are edited by appending and removing.
 * The component's state is the fields of `Wizard`; each handler is a
 * method that changes them.
 */
module GrantWizard {

  datatype Question = Question(question: string, kind: string, required: bool)

  datatype Reviewer = Reviewer(name: string, email: string, role: string)

  datatype NotificationSettings = NotificationSettings(emailApplicants: bool, emailCommittee: bool, publicAnnouncement: bool)

  /** The wizard's form. Amounts and dates are the text of their inputs. */
  datatype FormData = FormData(
    title: string,
    category: string,
    description: string,
    eligibilityCriteria: string,
    requiredDocuments: seq<string>,
    totalFunding: string,
    maxApplicationAmount: string,
    minApplicationAmount: string,
    applicationOpenDate: string,
    applicationCloseDate: string,
    assessmentPeriod: string,
    fundingStartDate: string,
    fundingEndDate: string,
    customQuestions: seq<Question>,
    budgetRequirements: bool,
    projectTimeline: bool,
    impactMeasurement: bool,
    partnershipDetails: bool,
    reviewCommittee: seq<Reviewer>,
    scoringCriteria: seq<string>,
    autoPublish: bool,
    notificationSettings: NotificationSettings)

  /** The form the wizard starts with. */
  const InitialForm: FormData := FormData(
    "", "", "", "", [], "", "", "", "", "", "", "", "", [], true, true, true, false, [], [], false,
    NotificationSettings(true, true, false))

  const FirstStep := 1
  const LastStep := 4

  /**
   * The text inputs of the form. `fundingEndDate` has no input: only the
   * initial state sets it.
   */
  datatype TextField =
    | Title | Category | Description | EligibilityCriteria
    | TotalFunding | MaxApplicationAmount | MinApplicationAmount
    | ApplicationOpenDate | ApplicationCloseDate | AssessmentPeriod | FundingStartDate

  function TextOf(form: FormData, field: TextField): string
  {
    match field
    case Title => form.title
    case Category => form.category
    case Description => form.description
    case EligibilityCriteria => form.eligibilityCriteria
    case TotalFunding => form.totalFunding
    case MaxApplicationAmount => form.maxApplicationAmount
    case MinApplicationAmount => form.minApplicationAmount
    case ApplicationOpenDate => form.applicationOpenDate
    case ApplicationCloseDate => form.applicationCloseDate
    case AssessmentPeriod => form.assessmentPeriod
    case FundingStartDate => form.fundingStartDate
  }

  /** `updateFormData(field, value)` for a text input: that input takes the value, every other field keeps its own. */
  function WithText(form: FormData, field: TextField, value: string): (f: FormData)
    ensures TextOf(f, field) == value
    ensures forall other :: other != field ==> TextOf(f, other) == TextOf(form, other)
    ensures f.requiredDocuments == form.requiredDocuments && f.customQuestions == form.customQuestions
    ensures f.reviewCommittee == form.reviewCommittee && f.fundingEndDate == form.fundingEndDate
  {
    match field
    case Title => form.(title := value)
    case Category => form.(category := value)
    case Description => form.(description := value)
    case EligibilityCriteria => form.(eligibilityCriteria := value)
    case TotalFunding => form.(totalFunding := value)
    case MaxApplicationAmount => form.(maxApplicationAmount := value)
    case MinApplicationAmount => form.(minApplicationAmount := value)
    case ApplicationOpenDate => form.(applicationOpenDate := value)
    case ApplicationCloseDate => form.(applicationCloseDate := value)
    case AssessmentPeriod => form.(assessmentPeriod := value)
    case FundingStartDate => form.(fundingStartDate := value)
  }

  // ---------------------------------------------------------------------
  // Validation
  // ---------------------------------------------------------------------

  /** An error for `key` when `missing`, none otherwise. */
  function ErrorIf(missing: bool, key: string, message: string): (errors: map<string, string>)
    ensures errors.Keys == if missing then {key} else {}
  {
    if missing then map[key := message] else map[]
  }

  /** The errors of the basic-details step. */
  function DetailsErrors(form: FormData): (errors: map<string, string>)
    ensures "title" in errors <==> form.title == ""
    ensures "category" in errors <==> form.category == ""
    ensures "description" in errors <==> form.description == ""
    ensures "eligibilityCriteria" in errors <==> form.eligibilityCriteria == ""
    ensures errors.Keys <= {"title", "category", "description", "eligibilityCriteria"}
  {
    ErrorIf(form.title == "", "title", "Grant title is required")
    + ErrorIf(form.category == "", "category", "Category is required")
    + ErrorIf(form.description == "", "description", "Description is required")
    + ErrorIf(form.eligibilityCriteria == "", "eligibilityCriteria", "Eligibility criteria is required")
  }

  /** The errors of the funding-and-dates step. */
  function FundingErrors(form: FormData): (errors: map<string, string>)
    ensures "totalFunding" in errors <==> form.totalFunding == ""
    ensures "applicationOpenDate" in errors <==> form.applicationOpenDate == ""
    ensures "applicationCloseDate" in errors <==> form.applicationCloseDate == ""
    ensures errors.Keys <= {"totalFunding", "applicationOpenDate", "applicationCloseDate"}
  {
    ErrorIf(form.totalFunding == "", "totalFunding", "Total funding is required")
    + ErrorIf(form.applicationOpenDate == "", "applicationOpenDate", "Open date is required")
    + ErrorIf(form.applicationCloseDate == "", "applicationCloseDate", "Close date is required")
  }

  /**
   * `validateStep`'s error object: step 1 needs a title, a category, a
   * description and eligibility criteria; step 2 a total funding amount, an
   * open date and a close date; step 3 nothing; step 4 at least one
   * reviewer. Empty text counts as missing.
   */
  function StepErrors(form: FormData, step: int): (errors: map<string, string>)
    ensures step == 1 ==> errors == DetailsErrors(form)
    ensures step == 2 ==> errors == FundingErrors(form)
    ensures step == 4 ==> ("reviewCommittee" in errors <==> |form.reviewCommittee| == 0) && errors.Keys <= {"reviewCommittee"}
    ensures step !in {1, 2, 4} ==> errors == map[]
  {
    if step == 1 then DetailsErrors(form)
    else if step == 2 then FundingErrors(form)
    else if step == 4 then ErrorIf(|form.reviewCommittee| == 0, "reviewCommittee", "At least one reviewer is required")
    else map[]
  }

  /** Whether `validateStep` returns true. */
  predicate StepValid(form: FormData, step: int)
  {
    StepErrors(form, step) == map[]
  }

  /** What each step requires, field by field. */
  lemma StepRequirements(form: FormData, step: int)
    ensures step == 1 ==> (StepValid(form, step) <==>
      form.title != "" && form.category != "" && form.description != "" && form.eligibilityCriteria != "")
    ensures step == 2 ==> (StepValid(form, step) <==>
      form.totalFunding != "" && form.applicationOpenDate != "" && form.applicationCloseDate != "")
    ensures step == 3 ==> StepValid(form, step)
    ensures step == 4 ==> (StepValid(form, step) <==> |form.reviewCommittee| > 0)
  {
    var errors := StepErrors(form, step);
    if step == 1 && !(form.title != "" && form.category != "" && form.description != "" && form.eligibilityCriteria != "") {
      assert errors != map[] by {
        assert "title" in errors || "category" in errors || "description" in errors || "eligibilityCriteria" in errors;
      }
    }
    if step == 2 && !(form.totalFunding != "" && form.applicationOpenDate != "" && form.applicationCloseDate != "") {
      assert errors != map[] by {
        assert "totalFunding" in errors || "applicationOpenDate" in errors || "applicationCloseDate" in errors;
      }
    }
    if step == 4 && |form.reviewCommittee| == 0 {
      assert "reviewCommittee" in errors;
    }
  }

  // ---------------------------------------------------------------------
  // Step movement and progress
  // ---------------------------------------------------------------------

  /** `Math.min(step + 1, 4)` when the step validates, the same step otherwise. */
  function Next(step: int, valid: bool): (s: int)
    ensures FirstStep <= step <= LastStep ==> FirstStep <= s <= LastStep
    ensures !valid ==> s == step
    ensures valid && step < LastStep ==> s == step + 1
    ensures valid && step >= LastStep ==> s == LastStep
  {
    if valid then (if step + 1 < LastStep then step + 1 else LastStep) else step
  }

  /** `Math.max(step - 1, 1)`. */
  function Prev(step: int): (s: int)
    ensures FirstStep <= step <= LastStep ==> FirstStep <= s <= LastStep
    ensures step > FirstStep ==> s == step - 1
    ensures step <= FirstStep ==> s == FirstStep
  {
    if step - 1 > FirstStep then step - 1 else FirstStep
  }

  /** Going forward from a step then back returns to it, except from the last step. */
  lemma NextThenPrev(step: int)
    requires FirstStep <= step < LastStep
    ensures Prev(Next(step, true)) == step
  {
  }

  /** The completion shown, `Math.round(step / 4 * 100)` percent. */
  function Completion(step: int): (percent: int)
    ensures percent * LastStep == step * 100
  {
    step * 25
  }

  /** The estimated minutes left, `5 - step`. */
  function EstimatedMinutes(step: int): (minutes: int)
    ensures minutes + step == LastStep + 1
  {
    5 - step
  }

  /** Progress grows with the step: from 25% and 4 minutes at the first step to 100% and 1 minute at the last. */
  lemma ProgressBounds(step: int)
    requires FirstStep <= step <= LastStep
    ensures 25 <= Completion(step) <= 100 && 1 <= EstimatedMinutes(step) <= 4
    ensures Completion(step) == 100 <==> step == LastStep
    ensures Completion(Next(step, true)) >= Completion(step)
  {
  }

  // ---------------------------------------------------------------------
  // List edits
  // ---------------------------------------------------------------------

  /** The documents without any occurrence of `doc`, the others in order. */
  function Without(docs: seq<string>, doc: string): (r: seq<string>)
    ensures doc !in r
    ensures forall d :: d in r <==> d in docs && d != doc
    ensures |r| <= |docs|
  {
    if docs == [] then []
    else Without(docs[..|docs| - 1], doc) + (if docs[|docs| - 1] == doc then [] else [docs[|docs| - 1]])
  }

  /** A document checkbox: checking appends the document, unchecking removes every occurrence of it. */
  function ToggleDocument(docs: seq<string>, doc: string, checked: bool): (r: seq<string>)
    ensures checked ==> |r| == |docs| + 1 && r[..|docs|] == docs && r[|docs|] == doc
    ensures !checked ==> doc !in r && forall d :: d != doc ==> (d in r <==> d in docs)
  {
    if checked then docs + [doc] else Without(docs, doc)
  }

  /** Removing a document that was never listed leaves the list as it was. */
  lemma {:induction false} WithoutAbsent(docs: seq<string>, doc: string)
    requires doc !in docs
    ensures Without(docs, doc) == docs
  {
    if docs != [] {
      var init := docs[..|docs| - 1];
      WithoutAbsent(init, doc);
      assert init + [docs[|docs| - 1]] == docs;
    }
  }

  /** Checking then unchecking a document that was not listed restores the list. */
  lemma CheckThenUncheck(docs: seq<string>, doc: string)
    requires doc !in docs
    ensures ToggleDocument(ToggleDocument(docs, doc, true), doc, false) == docs
  {
    var checked := docs + [doc];
    assert checked[..|checked| - 1] == docs;
    WithoutAbsent(docs, doc);
  }

  /** `filter((_, i) => i !== index)`: the list without the element at `index`, the others in order. */
  function RemoveAt<T>(s: seq<T>, index: int): (r: seq<T>)
    ensures 0 <= index < |s| ==> |r| == |s| - 1
    ensures 0 <= index < |s| ==> forall i :: 0 <= i < index ==> r[i] == s[i]
    ensures 0 <= index < |s| ==> forall i :: index <= i < |r| ==> r[i] == s[i + 1]
    ensures !(0 <= index < |s|) ==> r == s
  {
    if 0 <= index < |s| then s[..index] + s[index + 1..] else s
  }

  /** Adding an element and removing it again by its index restores the list. */
  lemma AppendThenRemove<T>(s: seq<T>, x: T)
    ensures RemoveAt(s + [x], |s|) == s
  {
    assert (s + [x])[..|s|] == s;
  }

  /** The question that "Add Custom Question" appends. */
  const NewQuestion := Question("", "text", false)

  /** The reviewer that "Add Reviewer" appends. */
  const NewReviewer := Reviewer("", "", "reviewer")

  /** Adding a reviewer lets the last step pass; removing the only reviewer makes it fail. */
  lemma ReviewerGate(form: FormData, index: int)
    ensures StepValid(form.(reviewCommittee := form.reviewCommittee + [NewReviewer]), LastStep)
    ensures |form.reviewCommittee| == 1 && index == 0 ==>
              !StepValid(form.(reviewCommittee := RemoveAt(form.reviewCommittee, index)), LastStep)
  {
    StepRequirements(form.(reviewCommittee := form.reviewCommittee + [NewReviewer]), LastStep);
    StepRequirements(form.(reviewCommittee := RemoveAt(form.reviewCommittee, index)), LastStep);
  }

  // ---------------------------------------------------------------------
  // The component's state
  // ---------------------------------------------------------------------

  class Wizard {
    var currentStep: int
    var form: FormData
    var errors: map<string, string>

    /** The step is always one of the four. */
    ghost predicate Valid()
      reads this
    {
      FirstStep <= currentStep <= LastStep
    }

    constructor ()
      ensures Valid()
      ensures currentStep == FirstStep && form == InitialForm && errors == map[]
    {
      currentStep := FirstStep;
      form := InitialForm;
      errors := map[];
    }

    /** `validateStep`: records the step's errors and reports whether there are none. */
    method ValidateStep(step: int) returns (ok: bool)
      modifies this
      ensures errors == StepErrors(form, step)
      ensures ok <==> StepValid(form, step)
      ensures form == old(form) && currentStep == old(currentStep)
    {
      errors := StepErrors(form, step);
      ok := |errors| == 0;
    }

    /** `nextStep`: validates the current step and moves forward only if it passes. */
    method NextStep()
      requires Valid()
      modifies this
      ensures Valid()
      ensures errors == StepErrors(form, old(currentStep)) && form == old(form)
      ensures currentStep == Next(old(currentStep), StepValid(form, old(currentStep)))
    {
      var ok := ValidateStep(currentStep);
      currentStep := Next(currentStep, ok);
    }

    /** `prevStep`: moves back, never before the first step; the errors stay. */
    method PrevStep()
      requires Valid()
      modifies this
      ensures Valid()
      ensures currentStep == Prev(old(currentStep)) && form == old(form) && errors == old(errors)
    {
      currentStep := Prev(currentStep);
    }

    /** `publishGrant`: proceeds only when the last step validates. */
    method PublishGrant() returns (published: bool)
      modifies this
      ensures published <==> |form.reviewCommittee| > 0
      ensures errors == StepErrors(form, LastStep)
      ensures form == old(form) && currentStep == old(currentStep)
    {
      published := ValidateStep(LastStep);
      StepRequirements(form, LastStep);
    }

    /** A text input's change handler. */
    method UpdateText(field: TextField, value: string)
      modifies this
      ensures form == WithText(old(form), field, value)
      ensures currentStep == old(currentStep) && errors == old(errors)
    {
      form := WithText(form, field, value);
    }

    /** A required-document checkbox's change handler. */
    method SetDocument(doc: string, checked: bool)
      modifies this
      ensures form == old(form).(requiredDocuments := ToggleDocument(old(form).requiredDocuments, doc, checked))
      ensures currentStep == old(currentStep) && errors == old(errors)
    {
      form := form.(requiredDocuments := ToggleDocument(form.requiredDocuments, doc, checked));
    }

    /** "Add Custom Question". */
    method AddQuestion()
      modifies this
      ensures form == old(form).(customQuestions := old(form).customQuestions + [NewQuestion])
      ensures currentStep == old(currentStep) && errors == old(errors)
    {
      form := form.(customQuestions := form.customQuestions + [NewQuestion]);
    }

    /** A custom question's "Remove". */
    method RemoveQuestion(index: int)
      modifies this
      ensures form == old(form).(customQuestions := RemoveAt(old(form).customQuestions, index))
      ensures currentStep == old(currentStep) && errors == old(errors)
    {
      form := form.(customQuestions := RemoveAt(form.customQuestions, index));
    }

    /** A custom question's text or response type being edited. */
    method EditQuestion(index: int, question: string, kind: string)
      requires 0 <= index < |form.customQuestions|
      modifies this
      ensures form == old(form).(customQuestions := old(form).customQuestions[index := Question(question, kind, old(form).customQuestions[index].required)])
      ensures currentStep == old(currentStep) && errors == old(errors)
    {
      var q := form.customQuestions[index];
      form := form.(customQuestions := form.customQuestions[index := q.(question := question, kind := kind)]);
    }

    /** "Add Reviewer". */
    method AddReviewer()
      modifies this
      ensures form == old(form).(reviewCommittee := old(form).reviewCommittee + [NewReviewer])
      ensures currentStep == old(currentStep) && errors == old(errors)
    {
      form := form.(reviewCommittee := form.reviewCommittee + [NewReviewer]);
    }

    /** A reviewer's "Remove". */
    method RemoveReviewer(index: int)
      modifies this
      ensures form == old(form).(reviewCommittee := RemoveAt(old(form).reviewCommittee, index))
      ensures currentStep == old(currentStep) && errors == old(errors)
    {
      form := form.(reviewCommittee := RemoveAt(form.reviewCommittee, index));
    }

    /** A reviewer's name, email or role being edited. */
    method EditReviewer(index: int, reviewer: Reviewer)
      requires 0 <= index < |form.reviewCommittee|
      modifies this
      ensures form == old(form).(reviewCommittee := old(form).reviewCommittee[index := reviewer])
      ensures currentStep == old(currentStep) && errors == old(errors)
    {
      form := form.(reviewCommittee := form.reviewCommittee[index := reviewer]);
    }
  }
}
