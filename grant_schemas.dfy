/**
 * Request bodies of the grant and application endpoints and their field
 * validators (backend/app/schemas/grant.py).  A validator that raises makes
 * the framework refuse the body with 422 before any handler runs.
 */
module GrantSchemas {
  import opened Common
  import opened GrantModel

  /** `GrantCreate`: the fields the model keeps. */
  datatype GrantCreate = GrantCreate(
    title: string,
    description: string,
    totalFunding: int,
    minAmount: Option<int>,
    maxAmount: Option<int>,
    category: GrantCategory,
    openDate: int,
    closeDate: int,
    organizationId: int,
    organizationName: string)

  /**
   * `GrantUpdate`: every field optional, `None` meaning "not supplied".  The
   * nullable amount columns take `Some(None)` for an explicit null.
   */
  datatype GrantUpdate = GrantUpdate(
    title: Option<string>,
    description: Option<string>,
    totalFunding: Option<int>,
    minAmount: Option<Option<int>>,
    maxAmount: Option<Option<int>>,
    category: Option<GrantCategory>,
    openDate: Option<int>,
    closeDate: Option<int>,
    status: Option<GrantStatus>,
    isFeatured: Option<bool>)

  /** The update that supplies nothing. */
  const EmptyGrantUpdate := GrantUpdate(None, None, None, None, None, None, None, None, None, None)

  /** `GrantUpdate(status=s)`, as built by the publish and close endpoints. */
  function StatusUpdate(s: GrantStatus): (u: GrantUpdate)
    ensures u.status == Some(s)
    ensures u == EmptyGrantUpdate.(status := Some(s))
  {
    EmptyGrantUpdate.(status := Some(s))
  }

  datatype ApplicationCreate = ApplicationCreate(
    grantId: nat,
    projectTitle: string,
    projectDescription: string,
    requestedAmount: int,
    organizationName: string)

  datatype ApplicationUpdate = ApplicationUpdate(
    projectTitle: Option<string>,
    projectDescription: Option<string>,
    requestedAmount: Option<int>,
    organizationName: Option<string>)

  /** `ApplicationReview`: the status may be any application status. */
  datatype ApplicationReview = ApplicationReview(
    status: ApplicationStatus,
    reviewerNotes: Option<string>,
    feedback: Option<string>,
    score: Option<int>)

  /** `validate_close_date`: the close date must come strictly after the open date. */
  function ValidateCloseDate(openDate: int, closeDate: int): (r: Result<int>)
    ensures r.Ok? <==> openDate < closeDate
    ensures r.Ok? ==> r.value == closeDate
    ensures r.Fail? ==> r.error == Unprocessable
  {
    if closeDate <= openDate then Fail(Unprocessable) else Ok(closeDate)
  }

  /** `validate_amount`: a requested amount must be positive. */
  function ValidateAmount(v: int): (r: Result<int>)
    ensures r.Ok? <==> v > 0
    ensures r.Ok? ==> r.value == v
    ensures r.Fail? ==> r.error == Unprocessable
  {
    if v <= 0 then Fail(Unprocessable) else Ok(v)
  }

  /** `validate_score`: a score is absent or lies in 0..100, both ends included. */
  function ValidateScore(v: Option<int>): (r: Result<Option<int>>)
    ensures r.Ok? <==> v.None? || 0 <= v.value <= 100
    ensures r.Ok? ==> r.value == v
    ensures r.Fail? ==> r.error == Unprocessable
  {
    if v.Some? && (v.value < 0 || v.value > 100) then Fail(Unprocessable) else Ok(v)
  }

  /** A grant-creation body as the framework admits it. */
  function ValidateGrantCreate(c: GrantCreate): (r: Result<GrantCreate>)
    ensures r.Ok? <==> c.openDate < c.closeDate
    ensures r.Ok? ==> r.value == c
  {
    match ValidateCloseDate(c.openDate, c.closeDate)
    case Fail(e) => Fail(e)
    case Ok(_) => Ok(c)
  }

  /** An application-creation body as the framework admits it. */
  function ValidateApplicationCreate(c: ApplicationCreate): (r: Result<ApplicationCreate>)
    ensures r.Ok? <==> c.requestedAmount > 0
    ensures r.Ok? ==> r.value == c
  {
    match ValidateAmount(c.requestedAmount)
    case Fail(e) => Fail(e)
    case Ok(_) => Ok(c)
  }

  /** A review body as the framework admits it: only the score is checked. */
  function ValidateReview(rv: ApplicationReview): (r: Result<ApplicationReview>)
    ensures r.Ok? <==> rv.score.None? || 0 <= rv.score.value <= 100
    ensures r.Ok? ==> r.value == rv
  {
    match ValidateScore(rv.score)
    case Fail(e) => Fail(e)
    case Ok(_) => Ok(rv)
  }

  /**
   * Nothing restricts a review to a decision: with an admissible score, every
   * status, DRAFT included, passes validation.
   */
  lemma ReviewAcceptsAnyStatus(s: ApplicationStatus, notes: Option<string>, feedback: Option<string>, score: Option<int>)
    requires score.None? || 0 <= score.value <= 100
    ensures ValidateReview(ApplicationReview(s, notes, feedback, score)).Ok?
  {
  }
}
