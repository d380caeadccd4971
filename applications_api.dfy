/**
 * The application endpoints of the FastAPI app
 * (backend/app/api/v1/applications.py): who sees which applications, the
 * ordered creation checks, owner-only editing and submission, and the
 * review rule that only SUBMITTED or UNDER_REVIEW applications are decided.
 */
module ApplicationsApi {
  import opened Common
  import opened UserModel
  import opened Deps
  import opened GrantModel
  import opened GrantSchemas
  import opened GrantCrud

  /** The application filters of `get_applications`; `None` leaves a filter off. */
  datatype ApplicationQuery = ApplicationQuery(
    status: Option<ApplicationStatus>,
    grantId: Option<int>,
    applicantId: Option<int>,
    organizationId: Option<int>)

  /**
   * One row against the filters; the organization filter joins the grant, so
   * an application whose grant is missing never passes it.  Ids and
   * organizations of 0 count as absent filters, as Python truthiness has it.
   */
  predicate AppMatches(a: Application, grants: map<nat, Grant>, q: ApplicationQuery)
  {
    (q.status.None? || a.status == q.status.value)
    && (!Truthy(q.grantId) || a.grantId == q.grantId.value)
    && (!Truthy(q.applicantId) || a.applicantId == q.applicantId.value)
    && (!Truthy(q.organizationId)
        || (a.grantId in grants && grants[a.grantId].organizationId == q.organizationId.value))
  }

  function SelectApplications(apps: map<nat, Application>, grants: map<nat, Grant>, q: ApplicationQuery): (ids: set<nat>)
    ensures forall k :: k in ids <==> k in apps && AppMatches(apps[k], grants, q)
  {
    set k | k in apps && AppMatches(apps[k], grants, q)
  }

  /**
   * The filters `list_applications` really applies: an applicant is pinned to
   * their own applications with no organization filter; a client user is
   * pinned to their own organization; a super admin keeps the request.
   */
  function ListApplicationsQuery(caller: User, q: ApplicationQuery): (r: ApplicationQuery)
    ensures caller.role == Applicant ==> r.applicantId == Some(caller.id as int) && r.organizationId == None
    ensures IsClientUser(caller.role) ==> r.applicantId == None && r.organizationId == caller.organizationId
    ensures caller.role == SuperAdmin || caller.role == Professional ==> r == q.(applicantId := None)
    ensures r.status == q.status && r.grantId == q.grantId
  {
    if caller.role == Applicant then q.(applicantId := Some(caller.id as int), organizationId := None)
    else if IsClientUser(caller.role) && caller.role != SuperAdmin then q.(applicantId := None, organizationId := caller.organizationId)
    else q.(applicantId := None)
  }

  /** An applicant (with a truthy id) lists only their own applications. */
  lemma ApplicantListsOwn(apps: map<nat, Application>, grants: map<nat, Grant>, caller: User, q: ApplicationQuery, k: nat)
    requires caller.role == Applicant && caller.id != 0
    requires k in SelectApplications(apps, grants, ListApplicationsQuery(caller, q))
    ensures apps[k].applicantId == caller.id
  {
  }

  /** A client user with an organization lists only applications to that organization's grants. */
  lemma ClientListsOwnOrganization(apps: map<nat, Application>, grants: map<nat, Grant>, caller: User,
                                   q: ApplicationQuery, k: nat)
    requires IsClientUser(caller.role) && Truthy(caller.organizationId)
    requires k in SelectApplications(apps, grants, ListApplicationsQuery(caller, q))
    ensures apps[k].grantId in grants && Some(grants[apps[k].grantId].organizationId) == caller.organizationId
  {
  }

  /** The caller's applications to one grant. */
  function ApplicationsByFor(apps: map<nat, Application>, applicantId: nat, grantId: nat): (ids: set<nat>)
    ensures forall k :: k in ids <==> k in apps && apps[k].applicantId == applicantId && apps[k].grantId == grantId
  {
    set k | k in apps && apps[k].applicantId == applicantId && apps[k].grantId == grantId
  }

  /** The requested amount against the grant's bounds; a bound of None or 0 is not enforced. */
  predicate WithinBounds(amount: int, g: Grant)
  {
    (!Truthy(g.minAmount) || amount >= g.minAmount.value)
    && (!Truthy(g.maxAmount) || amount <= g.maxAmount.value)
  }

  /**
   * The ordered checks of `create_new_application`: the body (422), the
   * grant's existence (404), its status (400), the application window (400),
   * an earlier application by the caller in any status (400), the minimum and
   * the maximum (400).
   */
  function CreateApplicationCheck(grants: map<nat, Grant>, apps: map<nat, Application>, caller: User,
                                  data: ApplicationCreate, now: int): (e: Option<HttpError>)
    ensures e.None? <==> data.requestedAmount > 0 && data.grantId in grants
                         && IsOpen(grants[data.grantId], now)
                         && ApplicationsByFor(apps, caller.id, data.grantId) == {}
                         && WithinBounds(data.requestedAmount, grants[data.grantId])
    ensures data.requestedAmount <= 0 ==> e == Some(Unprocessable)
    ensures data.requestedAmount > 0 && data.grantId !in grants ==> e == Some(NotFound)
    ensures e.Some? && e.value != Unprocessable && e.value != NotFound ==> e.value == BadRequest
  {
    if ValidateApplicationCreate(data).Fail? then Some(Unprocessable)
    else if data.grantId !in grants then Some(NotFound)
    else
      var g := grants[data.grantId];
      if g.status != GPublished then Some(BadRequest)
      else if now < g.openDate || now > g.closeDate then Some(BadRequest)
      else if ApplicationsByFor(apps, caller.id, data.grantId) != {} then Some(BadRequest)
      else if Truthy(g.minAmount) && data.requestedAmount < g.minAmount.value then Some(BadRequest)
      else if Truthy(g.maxAmount) && data.requestedAmount > g.maxAmount.value then Some(BadRequest)
      else None
  }

  /** No applicant holds two applications to the same grant. */
  ghost predicate OnePerApplicant(apps: map<nat, Application>)
  {
    forall j, k :: j in apps && k in apps && j != k && apps[j].applicantId == apps[k].applicantId
                   ==> apps[j].grantId != apps[k].grantId
  }

  /**
   * Creation through the endpoint keeps at most one application per
   * applicant and grant, whatever the status of the earlier one.
   */
  lemma CreationKeepsOnePerApplicant(grants: map<nat, Grant>, apps: map<nat, Application>, caller: User,
                                     data: ApplicationCreate, now: int, k: nat, a: Application)
    requires OnePerApplicant(apps)
    requires CreateApplicationCheck(grants, apps, caller, data, now).None?
    requires k !in apps && a.applicantId == caller.id && a.grantId == data.grantId
    ensures OnePerApplicant(apps[k := a])
  {
    var apps' := apps[k := a];
    forall i, j | i in apps' && j in apps' && i != j && apps'[i].applicantId == apps'[j].applicantId
      ensures apps'[i].grantId != apps'[j].grantId
    {
      if i == k {
        assert j !in ApplicationsByFor(apps, caller.id, data.grantId);
      } else if j == k {
        assert i !in ApplicationsByFor(apps, caller.id, data.grantId);
      }
    }
  }

  /**
   * `create_new_application` with the derived application count: the row is
   * created and returned, and the grant's count goes up by exactly one.
   */
  method CreateNewApplication(s: Store, caller: User, data: ApplicationCreate, now: int, year: nat)
    returns (r: Result<Application>)
    requires s.Valid()
    modifies s
    ensures s.Valid()
    ensures r.Fail? <==> CreateApplicationCheck(old(s.grants), old(s.applications), caller, data, now).Some?
    ensures r.Fail? ==> Some(r.error) == CreateApplicationCheck(old(s.grants), old(s.applications), caller, data, now)
                        && s.applications == old(s.applications)
    ensures r.Ok? ==> r.value.status == Draft && r.value.applicantId == caller.id && r.value.grantId == data.grantId
                      && r.value.referenceNumber == ReferenceNumber(year, data.grantId, r.value.id)
                      && s.applications == old(s.applications)[r.value.id := r.value]
    ensures r.Ok? ==> ApplicationCount(s.applications, data.grantId) == ApplicationCount(old(s.applications), data.grantId) + 1
    ensures s.grants == old(s.grants)
  {
    var e := CreateApplicationCheck(s.grants, s.applications, caller, data, now);
    if e.Some? {
      return Fail(e.value);
    }
    var a := s.CreateApplication(data, caller.id, year);
    ApplicationCountInsert(old(s.applications), a.id, a, data.grantId);
    r := Ok(a);
  }

  /**
   * `create_new_application` as written: once the checks pass,
   * `create_application` fails at its flush (the reference number is still
   * unset), so every such request answers 500 and no application is stored.
   */
  method CreateNewApplicationAsWritten(s: Store, caller: User, data: ApplicationCreate, now: int, year: nat)
    returns (r: Result<Application>)
    requires s.Valid()
    modifies s
    ensures s.Valid()
    ensures r.Fail?
    ensures r.error == ServerError <==> CreateApplicationCheck(old(s.grants), old(s.applications), caller, data, now).None?
    ensures r.error != ServerError ==> Some(r.error) == CreateApplicationCheck(old(s.grants), old(s.applications), caller, data, now)
    ensures s.applications == old(s.applications) && s.grants == old(s.grants)
  {
    var e := CreateApplicationCheck(s.grants, s.applications, caller, data, now);
    if e.Some? {
      return Fail(e.value);
    }
    r := s.CreateApplicationAsWritten(data, caller.id, year);
  }

  /**
   * `create_new_application` with the reference number written before the
   * flush, but line 159 as written: after the application row is committed,
   * `grant.application_count += 1` assigns to a read-only derived property
   * and raises, so every request that passes the checks ends with 500
   * although the application now exists.
   */
  method CreateNewApplicationCountAsWritten(s: Store, caller: User, data: ApplicationCreate, now: int, year: nat)
    returns (r: Result<Application>)
    requires s.Valid()
    modifies s
    ensures s.Valid()
    ensures r.Fail?
    ensures CreateApplicationCheck(old(s.grants), old(s.applications), caller, data, now).None? ==>
              r.error == ServerError
              && s.applications.Keys == old(s.applications).Keys + {old(s.nextApplicationId)}
              && old(s.nextApplicationId) !in old(s.applications)
    ensures CreateApplicationCheck(old(s.grants), old(s.applications), caller, data, now).Some? ==>
              s.applications == old(s.applications)
    ensures s.grants == old(s.grants)
  {
    var e := CreateApplicationCheck(s.grants, s.applications, caller, data, now);
    if e.Some? {
      return Fail(e.value);
    }
    var a := s.CreateApplication(data, caller.id, year);
    r := Fail(ServerError);
  }

  /**
   * The read rule of `get_application_by_id`, an if/elif chain: the owner;
   * else a client user of the grant's organization; else a super admin.
   */
  predicate CanReadApplication(caller: User, a: Application, grants: map<nat, Grant>)
  {
    if caller.id == a.applicantId then true
    else if IsClientUser(caller.role) then
      a.grantId in grants && Some(grants[a.grantId].organizationId) == caller.organizationId
    else caller.role == SuperAdmin
  }

  function GetApplicationById(apps: map<nat, Application>, grants: map<nat, Grant>, caller: User, id: nat)
    : (r: Result<Application>)
    ensures id !in apps ==> r == Fail(NotFound)
    ensures id in apps ==> (r.Ok? <==> CanReadApplication(caller, apps[id], grants))
    ensures r.Ok? ==> r.value == apps[id]
    ensures r.Fail? ==> r.error == NotFound || r.error == Forbidden
  {
    if id !in apps then Fail(NotFound)
    else if !CanReadApplication(caller, apps[id], grants) then Fail(Forbidden)
    else Ok(apps[id])
  }

  /**
   * Everyone else is refused: an applicant or professional reads only their
   * own applications, and a client user only those of their organization.
   */
  lemma ApplicationReadersAreExactly(caller: User, a: Application, grants: map<nat, Grant>)
    ensures CanReadApplication(caller, a, grants) <==>
              caller.id == a.applicantId
              || caller.role == SuperAdmin
              || (IsClientUser(caller.role) && a.grantId in grants
                  && Some(grants[a.grantId].organizationId) == caller.organizationId)
  {
  }

  /** `update_application_by_id`'s checks: 404, then owner only (403), then DRAFT only (400). */
  function UpdateApplicationCheck(apps: map<nat, Application>, caller: User, id: nat): (r: Result<Application>)
    ensures r.Ok? <==> id in apps && apps[id].applicantId == caller.id && apps[id].status == Draft
    ensures r.Ok? ==> r.value == apps[id]
    ensures id !in apps ==> r == Fail(NotFound)
    ensures id in apps && apps[id].applicantId != caller.id ==> r == Fail(Forbidden)
    ensures id in apps && apps[id].applicantId == caller.id && apps[id].status != Draft ==> r == Fail(BadRequest)
  {
    if id !in apps then Fail(NotFound)
    else if caller.id != apps[id].applicantId then Fail(Forbidden)
    else if apps[id].status != Draft then Fail(BadRequest)
    else Ok(apps[id])
  }

  method UpdateApplicationById(s: Store, caller: User, id: nat, u: ApplicationUpdate) returns (r: Result<Application>)
    requires s.Valid()
    modifies s
    ensures s.Valid()
    ensures r.Fail? <==> UpdateApplicationCheck(old(s.applications), caller, id).Fail?
    ensures r.Fail? ==> r == UpdateApplicationCheck(old(s.applications), caller, id) && s.applications == old(s.applications)
    ensures r.Ok? ==> r.value == ApplyApplicationUpdate(old(s.applications)[id], u)
                      && s.applications == old(s.applications)[id := r.value]
    ensures s.grants == old(s.grants)
  {
    var check := UpdateApplicationCheck(s.applications, caller, id);
    if check.Fail? {
      return check;
    }
    var updated := s.UpdateApplication(id, u);
    r := Ok(updated.value);
  }

  /**
   * `submit_application_for_review`'s checks: 404, owner only (403), the
   * grant PUBLISHED (400) and its close date not passed (400); the open date
   * is not checked again.  The DRAFT rule of `submit_application` follows (400).
   */
  function SubmitCheck(apps: map<nat, Application>, grants: map<nat, Grant>, caller: User, id: nat, now: int)
    : (r: Result<Application>)
    ensures r.Ok? <==> id in apps && apps[id].applicantId == caller.id
                       && apps[id].grantId in grants && grants[apps[id].grantId].status == GPublished
                       && now <= grants[apps[id].grantId].closeDate && apps[id].status == Draft
    ensures r.Ok? ==> r.value == apps[id]
    ensures id !in apps ==> r == Fail(NotFound)
    ensures id in apps && apps[id].applicantId != caller.id ==> r == Fail(Forbidden)
    ensures r.Fail? ==> r.error in {NotFound, Forbidden, BadRequest}
  {
    if id !in apps then Fail(NotFound)
    else if caller.id != apps[id].applicantId then Fail(Forbidden)
    else if apps[id].grantId !in grants || grants[apps[id].grantId].status != GPublished then Fail(BadRequest)
    else if now > grants[apps[id].grantId].closeDate then Fail(BadRequest)
    else if Submit(apps[id], now).None? then Fail(BadRequest)
    else Ok(apps[id])
  }

  /** Submission is allowed before the window opens, as long as the grant is PUBLISHED and not yet closed. */
  lemma SubmitIgnoresOpenDate(apps: map<nat, Application>, grants: map<nat, Grant>, caller: User, id: nat, now: int)
    requires id in apps && apps[id].applicantId == caller.id && apps[id].status == Draft
    requires apps[id].grantId in grants && grants[apps[id].grantId].status == GPublished
    requires now < grants[apps[id].grantId].openDate <= grants[apps[id].grantId].closeDate
    ensures SubmitCheck(apps, grants, caller, id, now).Ok?
  {
  }

  method SubmitApplicationForReview(s: Store, caller: User, id: nat, now: int) returns (r: Result<Application>)
    requires s.Valid()
    modifies s
    ensures s.Valid()
    ensures r.Fail? <==> SubmitCheck(old(s.applications), old(s.grants), caller, id, now).Fail?
    ensures r.Fail? ==> r == SubmitCheck(old(s.applications), old(s.grants), caller, id, now)
                        && s.applications == old(s.applications)
    ensures r.Ok? ==> Some(r.value) == Submit(old(s.applications)[id], now)
                      && s.applications == old(s.applications)[id := r.value]
    ensures s.grants == old(s.grants)
  {
    var check := SubmitCheck(s.applications, s.grants, caller, id, now);
    if check.Fail? {
      return check;
    }
    var submitted := s.SubmitApplication(id, now);
    r := Ok(submitted.value);
  }

  /**
   * `review_application_by_id`'s checks: the client-user gate (403), the
   * body's score (422), the application (404) and its grant (404), the
   * organization (403), then only SUBMITTED or UNDER_REVIEW may be reviewed (400).
   */
  function ReviewCheck(apps: map<nat, Application>, grants: map<nat, Grant>, caller: User, id: nat,
                       rv: ApplicationReview): (r: Result<Application>)
    ensures r.Ok? <==> IsClientUser(caller.role) && ValidateReview(rv).Ok? && id in apps
                       && apps[id].grantId in grants
                       && caller.organizationId == Some(grants[apps[id].grantId].organizationId)
                       && (apps[id].status == Submitted || apps[id].status == UnderReview)
    ensures r.Ok? ==> r.value == apps[id]
    ensures !IsClientUser(caller.role) ==> r == Fail(Forbidden)
  {
    if ApplyGate(ClientUserGate, caller).Fail? then Fail(Forbidden)
    else if ValidateReview(rv).Fail? then Fail(Unprocessable)
    else if id !in apps then Fail(NotFound)
    else if apps[id].grantId !in grants then Fail(NotFound)
    else if caller.role != SuperAdmin && Some(grants[apps[id].grantId].organizationId) != caller.organizationId then Fail(Forbidden)
    else if apps[id].status != Submitted && apps[id].status != UnderReview then Fail(BadRequest)
    else Ok(apps[id])
  }

  method ReviewApplicationById(s: Store, caller: User, id: nat, rv: ApplicationReview, now: int)
    returns (r: Result<Application>)
    requires s.Valid()
    modifies s
    ensures s.Valid()
    ensures r.Fail? <==> ReviewCheck(old(s.applications), old(s.grants), caller, id, rv).Fail?
    ensures r.Fail? ==> r == ReviewCheck(old(s.applications), old(s.grants), caller, id, rv)
                        && s.applications == old(s.applications)
    ensures r.Ok? ==> r.value == Review(old(s.applications)[id], caller.id, rv, now)
                      && s.applications == old(s.applications)[id := r.value]
    ensures s.grants == old(s.grants)
  {
    var check := ReviewCheck(s.applications, s.grants, caller, id, rv);
    if check.Fail? {
      return check;
    }
    var reviewed := s.ReviewApplication(id, caller.id, rv, now);
    r := Ok(reviewed.value);
  }

  /**
   * APPROVED, REJECTED and WITHDRAWN are final through the endpoints: such an
   * application can be neither edited, nor submitted, nor reviewed again.
   */
  lemma DecisionsAreFinal(apps: map<nat, Application>, grants: map<nat, Grant>, caller: User, id: nat,
                          rv: ApplicationReview, now: int)
    requires id in apps && apps[id].status in {Approved, Rejected, Withdrawn}
    ensures UpdateApplicationCheck(apps, caller, id).Fail?
    ensures SubmitCheck(apps, grants, caller, id, now).Fail?
    ensures ReviewCheck(apps, grants, caller, id, rv).Fail?
  {
  }

  /** A reviewer may send an application back to any status, DRAFT included. */
  lemma ReviewCanReopen(a: Application, reviewerId: nat, now: int)
    ensures Review(a, reviewerId, ApplicationReview(Draft, None, None, None), now).status == Draft
    ensures IsEditable(Review(a, reviewerId, ApplicationReview(Draft, None, None, None), now))
  {
  }
}
