/**
 * The grant endpoints of the FastAPI app (backend/app/api/v1/grants.py):
 * listing visibility, creation rights, reads with their view counting, and
 * the update, delete, publish and close lifecycle guarded by the
 * client-user gate and the organization check.
 */
module GrantsApi {
  import opened Common
  import opened UserModel
  import opened Deps
  import opened GrantModel
  import opened GrantSchemas
  import opened GrantCrud

  /** The page of a listing: the selected ids (order and offset are not modelled) and the arithmetic. */
  datatype GrantPage = GrantPage(ids: set<nat>, total: nat, page: nat, perPage: nat, pages: nat)

  /**
   * The filters `list_grants` really applies: anonymous callers and
   * applicants only ever see PUBLISHED grants, and a client user who names no
   * organization is pinned to their own.
   */
  function ListQuery(caller: Option<User>, q: GrantQuery): (r: GrantQuery)
    ensures caller.None? || caller.value.role == Applicant ==> r.status == Some(GPublished)
    ensures caller.Some? && caller.value.role != Applicant ==> r.status == q.status
    ensures caller.Some? && IsClientUser(caller.value.role) && !Truthy(q.organizationId)
            ==> r.organizationId == caller.value.organizationId
    ensures !(caller.Some? && IsClientUser(caller.value.role)) || Truthy(q.organizationId)
            ==> r.organizationId == q.organizationId
    ensures r.category == q.category && r.search == q.search
    ensures r.isFeatured == q.isFeatured && r.isOpen == q.isOpen
  {
    var status := if caller.None? || caller.value.role == Applicant then Some(GPublished) else q.status;
    var org := if caller.Some? && IsClientUser(caller.value.role) && !Truthy(q.organizationId)
               then caller.value.organizationId else q.organizationId;
    q.(status := status, organizationId := org)
  }

  /** `list_grants`; a `limit` outside 1..100 or a negative `skip` is refused by the query validation. */
  function ListGrants(grants: map<nat, Grant>, caller: Option<User>, q: GrantQuery,
                      skip: int, limit: int, now: int): (r: Result<GrantPage>)
    ensures r.Ok? <==> skip >= 0 && 1 <= limit <= 100
    ensures r.Fail? ==> r.error == Unprocessable
    ensures r.Ok? ==> r.value.ids == SelectGrants(grants, ListQuery(caller, q), now)
    ensures r.Ok? ==> r.value.total == |CountGrants(grants, ListQuery(caller, q))|
    ensures r.Ok? ==> r.value.page == PageNumber(skip, limit) && r.value.pages == PageCount(r.value.total, limit)
  {
    if skip < 0 || limit < 1 || limit > 100 then Fail(Unprocessable)
    else
      var q' := ListQuery(caller, q);
      var total := |CountGrants(grants, q')|;
      Ok(GrantPage(SelectGrants(grants, q', now), total, PageNumber(skip, limit), limit, PageCount(total, limit)))
  }

  /** Anonymous callers and applicants never see a grant that is not PUBLISHED. */
  lemma PublicListingShowsOnlyPublished(grants: map<nat, Grant>, caller: Option<User>, q: GrantQuery,
                                        skip: int, limit: int, now: int, k: nat)
    requires caller.None? || caller.value.role == Applicant
    requires ListGrants(grants, caller, q, skip, limit, now).Ok?
    requires k in ListGrants(grants, caller, q, skip, limit, now).value.ids
    ensures k in grants && grants[k].status == GPublished
  {
  }

  /**
   * A client user with an organization who names none in the query only sees
   * (and only counts) their own organization's grants.
   */
  lemma ClientListingPinnedToOrganization(grants: map<nat, Grant>, u: User, q: GrantQuery,
                                          skip: int, limit: int, now: int, k: nat)
    requires IsClientUser(u.role) && Truthy(u.organizationId) && !Truthy(q.organizationId)
    requires ListGrants(grants, Some(u), q, skip, limit, now).Ok?
    requires k in ListGrants(grants, Some(u), q, skip, limit, now).value.ids
    ensures k in grants && Some(grants[k].organizationId) == u.organizationId
  {
  }

  /** The listed page is never larger than the total reported beside it. */
  lemma ListedWithinTotal(grants: map<nat, Grant>, caller: Option<User>, q: GrantQuery,
                          skip: int, limit: int, now: int)
    requires ListGrants(grants, caller, q, skip, limit, now).Ok?
    ensures |ListGrants(grants, caller, q, skip, limit, now).value.ids|
            <= ListGrants(grants, caller, q, skip, limit, now).value.total
  {
    SelectedAreCounted(grants, ListQuery(caller, q), now);
  }

  /**
   * `create_new_grant`'s role rule: a super admin may create for any
   * organization, a client user only for their own, anyone else gets 403.
   */
  function CreateGrantCheck(caller: User, organizationId: int): (e: Option<HttpError>)
    ensures e.None? <==> caller.role == SuperAdmin
                         || (IsClientUser(caller.role) && caller.organizationId == Some(organizationId))
    ensures e.Some? ==> e.value == Forbidden
  {
    if caller.role == SuperAdmin then None
    else if IsClientUser(caller.role) then
      if caller.organizationId != Some(organizationId) then Some(Forbidden) else None
    else Some(Forbidden)
  }

  /** Applicants and professionals can never create a grant, whatever the organization. */
  lemma CreateGrantNeedsManager(caller: User, organizationId: int)
    requires CreateGrantCheck(caller, organizationId).None?
    ensures CanManageGrants(caller.role)
  {
  }

  /** The access rule for reading one grant; PUBLISHED grants are public. */
  function ReadGrantCheck(g: Grant, caller: Option<User>): (e: Option<HttpError>)
    ensures g.status == GPublished ==> e.None?
    ensures g.status != GPublished && caller.None? ==> e == Some(NotFound)
    ensures g.status != GPublished && caller.Some? ==>
              (e.None? <==> caller.value.role == SuperAdmin || caller.value.organizationId == Some(g.organizationId))
    ensures e.Some? ==> e.value == NotFound || e.value == Forbidden
  {
    if g.status != GPublished then
      if caller.None? then Some(NotFound)
      else if caller.value.role != SuperAdmin && Some(g.organizationId) != caller.value.organizationId then Some(Forbidden)
      else None
    else None
  }

  /**
   * The check shared by the update, delete, publish and close endpoints: the
   * client-user gate, then 404 for a missing grant, then 403 for a grant of
   * another organization (the super-admin exemption written there can never
   * apply, as the gate has already refused super admins).
   */
  function GrantAccess(caller: User, grants: map<nat, Grant>, id: nat): (r: Result<Grant>)
    ensures r.Ok? <==> IsClientUser(caller.role) && id in grants
                       && caller.organizationId == Some(grants[id].organizationId)
    ensures r.Ok? ==> r.value == grants[id]
    ensures r.Fail? ==> r.error == Forbidden || (r.error == NotFound && id !in grants)
  {
    if ApplyGate(ClientUserGate, caller).Fail? then Fail(Forbidden)
    else if id !in grants then Fail(NotFound)
    else if caller.role != SuperAdmin && Some(grants[id].organizationId) != caller.organizationId then Fail(Forbidden)
    else Ok(grants[id])
  }

  /** A super admin is refused by every grant lifecycle endpoint. */
  lemma SuperAdminCannotManageGrant(caller: User, grants: map<nat, Grant>, id: nat)
    requires caller.role == SuperAdmin
    ensures GrantAccess(caller, grants, id) == Fail(Forbidden)
  {
    ClientGateRefusesSuperAdmin(caller);
  }

  /** `publish_grant`'s checks: access first, then only a DRAFT may be published. */
  function PublishCheck(caller: User, grants: map<nat, Grant>, id: nat): (r: Result<Grant>)
    ensures GrantAccess(caller, grants, id).Fail? ==> r == GrantAccess(caller, grants, id)
    ensures GrantAccess(caller, grants, id).Ok? ==>
              (r.Ok? <==> grants[id].status == GDraft) && (r.Fail? ==> r.error == BadRequest)
  {
    match GrantAccess(caller, grants, id)
    case Fail(e) => Fail(e)
    case Ok(g) => if g.status != GDraft then Fail(BadRequest) else Ok(g)
  }

  /** `close_grant`'s checks: access first, then only a PUBLISHED grant may be closed. */
  function CloseCheck(caller: User, grants: map<nat, Grant>, id: nat): (r: Result<Grant>)
    ensures GrantAccess(caller, grants, id).Fail? ==> r == GrantAccess(caller, grants, id)
    ensures GrantAccess(caller, grants, id).Ok? ==>
              (r.Ok? <==> grants[id].status == GPublished) && (r.Fail? ==> r.error == BadRequest)
  {
    match GrantAccess(caller, grants, id)
    case Fail(e) => Fail(e)
    case Ok(g) => if g.status != GPublished then Fail(BadRequest) else Ok(g)
  }

  /**
   * `delete_grant_by_id`'s checks: access first, then a PUBLISHED grant with
   * applications is refused; any other grant, whatever its status, may be archived.
   */
  function DeleteCheck(caller: User, grants: map<nat, Grant>, apps: map<nat, Application>, id: nat): (r: Result<Grant>)
    ensures GrantAccess(caller, grants, id).Fail? ==> r == GrantAccess(caller, grants, id)
    ensures GrantAccess(caller, grants, id).Ok? ==>
              (r.Fail? <==> grants[id].status == GPublished && ApplicationCount(apps, id) > 0)
              && (r.Fail? ==> r.error == BadRequest)
  {
    match GrantAccess(caller, grants, id)
    case Fail(e) => Fail(e)
    case Ok(g) => if g.status == GPublished && ApplicationCount(apps, id) > 0 then Fail(BadRequest) else Ok(g)
  }

  /**
   * The organization check comes before the status check: a caller from
   * another organization learns 403, never the 400 that would reveal the
   * grant's status.
   */
  lemma ForeignCallerSeesForbidden(caller: User, grants: map<nat, Grant>, apps: map<nat, Application>, id: nat)
    requires id in grants && caller.organizationId != Some(grants[id].organizationId)
    ensures PublishCheck(caller, grants, id) == Fail(Forbidden)
    ensures CloseCheck(caller, grants, id) == Fail(Forbidden)
    ensures DeleteCheck(caller, grants, apps, id) == Fail(Forbidden)
  {
  }

  /** The lifecycle edges the endpoints allow: DRAFT to PUBLISHED, PUBLISHED to CLOSED. */
  lemma LifecycleEdges(caller: User, grants: map<nat, Grant>, id: nat)
    ensures PublishCheck(caller, grants, id).Ok? ==> grants[id].status == GDraft
    ensures CloseCheck(caller, grants, id).Ok? ==> grants[id].status == GPublished
    ensures !(PublishCheck(caller, grants, id).Ok? && CloseCheck(caller, grants, id).Ok?)
  {
  }

  /**
   * `create_new_grant`.  The body is validated first (422), then the role
   * rule (403), then the row is created.
   */
  method CreateNewGrant(s: Store, caller: User, data: GrantCreate) returns (r: Result<Grant>)
    requires s.Valid()
    modifies s
    ensures s.Valid()
    ensures r.Ok? <==> ValidateGrantCreate(data).Ok? && CreateGrantCheck(caller, data.organizationId).None?
    ensures r.Fail? ==> s.grants == old(s.grants) && s.nextGrantId == old(s.nextGrantId)
    ensures r.Ok? ==> r.value.id !in old(s.grants) && s.grants == old(s.grants)[r.value.id := r.value]
    ensures r.Ok? ==> r.value.status == GDraft && r.value.createdBy == caller.id
                      && r.value.organizationId == data.organizationId
    ensures s.applications == old(s.applications)
  {
    if ValidateGrantCreate(data).Fail? {
      return Fail(Unprocessable);
    }
    var e := CreateGrantCheck(caller, data.organizationId);
    if e.Some? {
      return Fail(e.value);
    }
    var g := s.CreateGrant(data, caller.id);
    r := Ok(g);
  }

  /**
   * `get_grant_by_id`: 404 for a missing id, then the read rule; a successful
   * read of a PUBLISHED grant counts one view, and no other read counts one.
   */
  method GetGrantById(s: Store, caller: Option<User>, id: nat) returns (r: Result<Grant>)
    requires s.Valid()
    modifies s
    ensures s.Valid()
    ensures r.Fail? <==> id !in old(s.grants) || ReadGrantCheck(old(s.grants)[id], caller).Some?
    ensures id !in old(s.grants) ==> r == Fail(NotFound)
    ensures r.Ok? && old(s.grants)[id].status == GPublished ==>
              r.value == old(s.grants)[id].(viewCount := old(s.grants)[id].viewCount + 1)
              && s.grants == old(s.grants)[id := r.value]
    ensures r.Ok? && old(s.grants)[id].status != GPublished ==>
              r.value == old(s.grants)[id] && s.grants == old(s.grants)
    ensures r.Fail? ==> s.grants == old(s.grants)
    ensures s.applications == old(s.applications)
    ensures s.nextGrantId == old(s.nextGrantId) && s.nextApplicationId == old(s.nextApplicationId)
  {
    if id !in s.grants {
      return Fail(NotFound);
    }
    var g := s.grants[id];
    var e := ReadGrantCheck(g, caller);
    if e.Some? {
      return Fail(e.value);
    }
    if g.status == GPublished {
      g := g.(viewCount := g.viewCount + 1);
      s.grants := s.grants[id := g];
    }
    r := Ok(g);
  }

  /**
   * `get_grant_by_id` as written.  The bearer scheme keeps its default
   * `auto_error`, so a request without an `Authorization: Bearer` header is
   * refused with 403 before the handler runs (`bearer` says whether the
   * header was sent).  The grant table has no `view_count` column: the
   * increment on a published grant raises, and for any other grant the
   * response schema, which requires `view_count`, fails; so every read that
   * passes the checks answers 500.
   */
  method GetGrantByIdAsWritten(s: Store, bearer: bool, caller: Option<User>, id: nat) returns (r: Result<Grant>)
    requires s.Valid()
    ensures r.Fail?
    ensures !bearer ==> r == Fail(Forbidden)
    ensures bearer && id !in s.grants ==> r == Fail(NotFound)
    ensures bearer && id in s.grants && ReadGrantCheck(s.grants[id], caller).Some? ==>
              Some(r.error) == ReadGrantCheck(s.grants[id], caller)
    ensures r == Fail(ServerError) <==> bearer && id in s.grants && ReadGrantCheck(s.grants[id], caller).None?
  {
    if !bearer {
      return Fail(Forbidden);
    }
    if id !in s.grants {
      return Fail(NotFound);
    }
    var g := s.grants[id];
    var e := ReadGrantCheck(g, caller);
    if e.Some? {
      return Fail(e.value);
    }
    r := Fail(ServerError);
  }

  /** `update_grant_by_id`: the supplied fields are written, `status` included, bypassing publish and close. */
  method UpdateGrantById(s: Store, caller: User, id: nat, u: GrantUpdate) returns (r: Result<Grant>)
    requires s.Valid()
    modifies s
    ensures s.Valid()
    ensures r.Fail? <==> GrantAccess(caller, old(s.grants), id).Fail?
    ensures r.Fail? ==> r == GrantAccess(caller, old(s.grants), id) && s.grants == old(s.grants)
    ensures r.Ok? ==> r.value == ApplyGrantUpdate(old(s.grants)[id], u) && s.grants == old(s.grants)[id := r.value]
    ensures s.applications == old(s.applications)
  {
    var check := GrantAccess(caller, s.grants, id);
    if check.Fail? {
      return check;
    }
    var updated := s.UpdateGrant(id, u);
    r := Ok(updated.value);
  }

  /**
   * Through the update endpoint any status can be reached from any status,
   * e.g. a CLOSED or ARCHIVED grant can be made PUBLISHED again.
   */
  lemma UpdateReachesAnyStatus(g: Grant, target: GrantStatus)
    ensures ApplyGrantUpdate(g, StatusUpdate(target)).status == target
  {
  }

  /** `delete_grant_by_id`: after the checks, the grant is archived. */
  method DeleteGrantById(s: Store, caller: User, id: nat) returns (r: Result<Grant>)
    requires s.Valid()
    modifies s
    ensures s.Valid()
    ensures r.Fail? <==> DeleteCheck(caller, old(s.grants), old(s.applications), id).Fail?
    ensures r.Fail? ==> r == DeleteCheck(caller, old(s.grants), old(s.applications), id) && s.grants == old(s.grants)
    ensures r.Ok? ==> r.value == old(s.grants)[id].(status := GArchived) && s.grants == old(s.grants)[id := r.value]
    ensures s.applications == old(s.applications)
  {
    var check := DeleteCheck(caller, s.grants, s.applications, id);
    if check.Fail? {
      return check;
    }
    var ok := s.DeleteGrant(id);
    r := Ok(s.grants[id]);
  }

  /** `publish_grant`: DRAFT becomes PUBLISHED; every refusal leaves the tables as they were. */
  method PublishGrant(s: Store, caller: User, id: nat) returns (r: Result<Grant>)
    requires s.Valid()
    modifies s
    ensures s.Valid()
    ensures r.Fail? <==> PublishCheck(caller, old(s.grants), id).Fail?
    ensures r.Fail? ==> r == PublishCheck(caller, old(s.grants), id) && s.grants == old(s.grants)
    ensures r.Ok? ==> old(s.grants)[id].status == GDraft
                      && r.value == old(s.grants)[id].(status := GPublished)
                      && s.grants == old(s.grants)[id := r.value]
    ensures s.applications == old(s.applications)
  {
    var check := PublishCheck(caller, s.grants, id);
    if check.Fail? {
      return check;
    }
    StatusUpdateOnlyStatus(s.grants[id], GPublished);
    var updated := s.UpdateGrant(id, StatusUpdate(GPublished));
    r := Ok(updated.value);
  }

  /** `close_grant`: PUBLISHED becomes CLOSED; every refusal leaves the tables as they were. */
  method CloseGrant(s: Store, caller: User, id: nat) returns (r: Result<Grant>)
    requires s.Valid()
    modifies s
    ensures s.Valid()
    ensures r.Fail? <==> CloseCheck(caller, old(s.grants), id).Fail?
    ensures r.Fail? ==> r == CloseCheck(caller, old(s.grants), id) && s.grants == old(s.grants)
    ensures r.Ok? ==> old(s.grants)[id].status == GPublished
                      && r.value == old(s.grants)[id].(status := GClosed)
                      && s.grants == old(s.grants)[id := r.value]
    ensures s.applications == old(s.applications)
  {
    var check := CloseCheck(caller, s.grants, id);
    if check.Fail? {
      return check;
    }
    StatusUpdateOnlyStatus(s.grants[id], GClosed);
    var updated := s.UpdateGrant(id, StatusUpdate(GClosed));
    r := Ok(updated.value);
  }
}
